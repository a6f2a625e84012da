/** The repair as it runs: walks up the parents that stop at a repeat, the get-or-create of the target
  * folders, and the loop over the documents. */
module RepairStore {
  import opened Prelude
  import opened Forest
  import Folders
  import opened FolderGraph
  import opened Repair
  import opened RepairGraph
  import opened FolderStore

  // ---------------------------------------------------------------- walking up

  lemma {:induction false} NeverLeaves(view: Tree, x: FolderId, seen: set<FolderId>, n: nat)
    requires x in seen && Up(view, Some(x), n).Some?
    requires forall y <- seen :: Parent(view, y).Some? ==> Parent(view, y).value in seen
    ensures Up(view, Some(x), n).value in seen
    decreases n
  {
    if n > 0 {
      NeverLeaves(view, Parent(view, x).value, seen, n - 1);
    }
  }

  /** The walk ends on cyclic parents too, and still decides what lies below what. */
  method IsDescendantOf(view: Tree, folder: FolderId, ancestor: FolderId) returns (found: bool)
    requires Closed(view) && folder in view
    ensures found <==> Below(view, folder, ancestor)
  {
    var current := Some(folder);
    var seen: set<FolderId> := {};
    BelowSelf(view, folder);
    while current.Some? && current.value !in seen
      invariant current.Some? ==> current.value in view && Below(view, folder, current.value)
      invariant seen <= view.Keys && ancestor !in seen
      invariant folder in seen || current == Some(folder)
      invariant forall y <- seen :: Parent(view, y).Some? ==> Parent(view, y).value in seen || Parent(view, y) == current
      decreases view.Keys - seen
    {
      if current.value == ancestor {
        return true;
      }
      var parent := view[current.value].parent;
      if parent.Some? {
        BelowParent(view, current.value, parent.value);
        BelowTransitive(view, folder, current.value, parent.value);
      }
      seen := seen + {current.value};
      current := parent;
    }
    if Below(view, folder, ancestor) {
      var n: nat :| Up(view, Some(folder), n) == Some(ancestor);
      NeverLeaves(view, folder, seen, n);
      assert false;
    }
    return false;
  }

  method FolderChain(view: Tree, folder: FolderId) returns (chain: seq<FolderId>)
    requires Closed(view) && folder in view
    ensures chain == Chain(view, Some(folder), {})
  {
    chain := [folder];
    var seen := {folder};
    var parent := view[folder].parent;
    assert Chain(view, Some(folder), {}) == Chain(view, parent, {} + {folder}) + [folder];
    assert {} + {folder} == seen;
    while parent.Some? && parent.value !in seen
      invariant parent.Some? ==> parent.value in view
      invariant seen <= view.Keys
      invariant Chain(view, Some(folder), {}) == Chain(view, parent, seen) + chain
      decreases view.Keys - seen
    {
      chain := [parent.value] + chain;
      seen := seen + {parent.value};
      parent := view[parent.value].parent;
    }
  }

  method FindStandardRoot(sources: seq<Folder>) returns (index: nat)
    ensures index == RootIndex(sources)
  {
    for i := 0 to |sources|
      invariant RootIndex(sources) == i + RootIndex(sources[i..])
    {
      assert sources[i..][0] == sources[i] && sources[i..][1..] == sources[i + 1..];
      if DefinitionFor(sources[i], Folders.STANDARD_ROOTS).Some? {
        return i;
      }
    }
    return |sources|;
  }

  // ---------------------------------------------------------------- get or create

  method EnsureProjectRoot(store: Tables, p: ProjectId, c: FolderId, d: Folders.Definition) returns (id: FolderId)
    modifies store`folders, store`nextFolder
    ensures Folders.Placed(store.folders, id, store.nextFolder)
            == PlaceRoot(old(store.folders), old(store.nextFolder), p, c, d)
  {
    var t := store.folders;
    var any := WithCode(t, p, d.code);
    var under := Under(t, any, c);
    if any == {} {
      id := store.nextFolder;
      store.folders := t[id := Folder(Some(p), Some(c), d.name, d.code, d.sortOrder, true, false)];
      store.nextFolder := id + 1;
    } else {
      var found := if under != {} then under else any;
      Folders.LeastExists(found);
      id :| id in found && forall x <- found :: id <= x;
      assert id == Folders.Least(found);
      store.folders := t[id := t[id].(parent := Some(c), name := d.name, active := true)];
    }
  }

  method EnsureChild(store: Tables, p: ProjectId, parent: FolderId, source: Folder) returns (id: FolderId)
    modifies store`folders, store`nextFolder
    ensures Folders.Placed(store.folders, id, store.nextFolder)
            == PlaceChild(old(store.folders), old(store.nextFolder), p, parent, source)
  {
    var t := store.folders;
    var found := Namesakes(t, p, parent, source.name);
    if found == {} {
      id := store.nextFolder;
      store.folders := t[id := Folder(Some(p), Some(parent), source.name, source.code, source.sortOrder, true, false)];
      store.nextFolder := id + 1;
    } else {
      Folders.LeastExists(found);
      id :| id in found && forall x <- found :: id <= x;
      assert id == Folders.Least(found);
      store.folders := t[id := t[id].(active := true)];
    }
  }

  method EnsureTarget(store: Tables, p: ProjectId, c: FolderId, sources: seq<Folder>) returns (current: FolderId)
    modifies store`folders, store`nextFolder
    ensures Folders.Placed(store.folders, current, store.nextFolder)
            == PlaceTarget(old(store.folders), old(store.nextFolder), p, c, sources)
  {
    var index := FindStandardRoot(sources);
    var copied := sources;
    current := c;
    if index < |sources| {
      current := EnsureProjectRoot(store, p, c, DefinitionFor(sources[index], Folders.STANDARD_ROOTS).value);
      copied := sources[index + 1..];
    }
    ghost var target := CopyChain(store.folders, store.nextFolder, p, current, copied);
    for i := 0 to |copied|
      invariant CopyChain(store.folders, store.nextFolder, p, current, copied[i..]) == target
    {
      assert copied[i..][0] == copied[i] && copied[i..][1..] == copied[i + 1..];
      current := EnsureChild(store, p, current, copied[i]);
    }
  }

  method PlaceInArchive(store: Tables, p: ProjectId, project: Project, year: nat, sources: seq<Folder>)
      returns (r: Result<FolderId, FolderError>)
    modifies store`folders, store`nextFolder
    ensures match PlaceDocument(old(store.folders), old(store.nextFolder), p, project, year, sources)
            case Ok(placed) => r.Ok? && Folders.Placed(store.folders, r.value, store.nextFolder) == placed
            case Err(e) => r == Err(e)
  {
    var y := store.GetYearFolder(year);
    if y.Err? {
      return y;
    }
    var c := store.GetContainer(y.value, p, project.title);
    if c.Err? {
      return c;
    }
    var target := EnsureTarget(store, p, c.value, sources);
    return Ok(target);
  }

  // ---------------------------------------------------------------- the loop

  method ExistingContainer(t: Tree, p: ProjectId) returns (container: Option<FolderId>)
    ensures ActiveContainers(t, p) == {} ==> container == None
    ensures ActiveContainers(t, p) != {} ==> container == Some(Folders.FirstOf(t, ActiveContainers(t, p)))
  {
    var found := ActiveContainers(t, p);
    if found == {} {
      return None;
    }
    Folders.FirstExists(t, found);
    var c :| c in found && forall x <- found :: Folders.ComesFirst(t, c, x);
    assert c == Folders.FirstOf(t, found);
    return Some(c);
  }

  method PlaceFromView(store: Tables, p: ProjectId, project: Project, view: Tree, f: FolderId)
      returns (r: Result<FolderId, FolderError>)
    requires Closed(view) && f in view && project.year.Some?
    modifies store`folders, store`nextFolder
    ensures var chain := Chain(view, Some(f), {});
            && (forall x <- chain :: x in view)
            && match PlaceDocument(old(store.folders), old(store.nextFolder), p, project, project.year.value, RowsOf(view, chain))
               case Ok(placed) => r.Ok? && Folders.Placed(store.folders, r.value, store.nextFolder) == placed
               case Err(e) => r == Err(e)
  {
    var chain := FolderChain(view, f);
    ChainInside(view, Some(f), {});
    r := PlaceInArchive(store, p, project, project.year.value, RowsOf(view, chain));
  }

  /** A document as the query read it, with its folder and that folder's parent. */
  method RepairOne(store: Tables, read: World, d: DocumentId, dryRun: bool) returns (r: Result<seq<Fix>, FolderError>)
    requires d in Due(read) && Closed(Seen(read.folders, store.folders, read.documents[d].folder))
    requires read.documents[d].folder in read.folders
    modifies store`folders, store`nextFolder, store`documents
    ensures match RepairDocument(read, old(store.View()), d, dryRun)
            case Ok(o) => r == Ok(o.fixes) && store.View() == o.world
            case Err(e) => r == Err(e)
  {
    var document := read.documents[d];
    var p := document.project.value;
    var project := read.projects[p];
    if project.year == None {
      return Ok([]);
    }
    var view := Seen(read.folders, store.folders, document.folder);
    var container := ExistingContainer(store.folders, p);
    if container.Some? {
      var inside := IsDescendantOf(view, document.folder, container.value);
      if inside {
        return Ok([]);
      }
    }
    if dryRun {
      return Ok([Fix(d, p, document.folder, None)]);
    }
    var placed := PlaceFromView(store, p, project, view, document.folder);
    if placed.Err? {
      return Err(placed.error);
    }
    store.documents := store.documents[d := document.(folder := placed.value)];
    return Ok([Fix(d, p, placed.value, Some(placed.value))]);
  }

  type Goal = Result<Outcome, FolderError>

  /** What every state inside a run keeps. */
  ghost predicate Ready(read: World, now: World, ids: seq<DocumentId>) {
    && SoundWorld(read) && SoundWorld(now) && Grown(read.folders, now.folders)
    && Waiting(read, now, ids) && Unrepeated(ids)
  }

  /** What is still to do is what the specification does from here. */
  ghost predicate OnTrack(read: World, now: World, ids: seq<DocumentId>, dryRun: bool, fixes: seq<Fix>, goal: Goal)
    requires forall d <- ids :: d in Due(read)
  {
    match RepairFrom(read, now, ids, dryRun)
    case Ok(o) => goal == Ok(Outcome(o.world, fixes + o.fixes))
    case Err(e) => goal == Err(e)
  }

  lemma TrackBegins(read: World, dryRun: bool)
    requires SoundWorld(read)
    ensures Ready(read, read, InOrder(Due(read))) && OnTrack(read, read, InOrder(Due(read)), dryRun, [], RepairAll(read, dryRun))
  {
    InOrderLists(Due(read));
    assert forall more: seq<Fix> :: [] + more == more;
  }

  lemma TrackGoesOn(read: World, now: World, ids: seq<DocumentId>, dryRun: bool, fixes: seq<Fix>, goal: Goal)
    requires ids != [] && (forall d <- ids :: d in Due(read)) && OnTrack(read, now, ids, dryRun, fixes, goal)
    ensures ids[0] in Due(read) && forall d <- ids[1..] :: d in Due(read)
    ensures match RepairDocument(read, now, ids[0], dryRun)
            case Ok(o) => OnTrack(read, o.world, ids[1..], dryRun, fixes + o.fixes, goal)
            case Err(e) => goal == Err(e)
  {
    assert ids[0] in ids;
    var one := RepairDocument(read, now, ids[0], dryRun);
    if one.Ok? {
      var rest := RepairFrom(read, one.value.world, ids[1..], dryRun);
      if rest.Ok? {
        assert (fixes + one.value.fixes) + rest.value.fixes == fixes + (one.value.fixes + rest.value.fixes);
      }
    }
  }

  lemma ReadyToRepair(read: World, now: World, ids: seq<DocumentId>)
    requires Ready(read, now, ids) && ids != []
    ensures ids[0] in Due(read) && read.documents[ids[0]].folder in read.folders
    ensures Closed(Seen(read.folders, now.folders, read.documents[ids[0]].folder))
  {
    assert ids[0] in ids;
    ViewIsClosed(read.folders, now.folders, read.documents[ids[0]].folder);
  }

  lemma NextIsReady(w0: World, w: World, v: World, ids: seq<DocumentId>, dryRun: bool)
    requires Ready(w0, w, ids) && ids != [] && ids[0] in Due(w0)
    requires RepairDocument(w0, w, ids[0], dryRun).Ok? && RepairDocument(w0, w, ids[0], dryRun).value.world == v
    ensures Ready(w0, v, ids[1..])
  {
    DocumentMoves(w0, w, ids[0], dryRun);
    MovesKeepsSound(w, v);
    TailWaits(w0, w, v, ids);
  }

  method RepairNext(store: Tables, read: World, ids: seq<DocumentId>, dryRun: bool, fixes: seq<Fix>, ghost goal: Goal)
      returns (r: Result<seq<Fix>, FolderError>)
    requires Ready(read, store.View(), ids) && ids != [] && OnTrack(read, store.View(), ids, dryRun, fixes, goal)
    modifies store`folders, store`nextFolder, store`documents
    ensures match r
            case Ok(one) => Ready(read, store.View(), ids[1..]) && OnTrack(read, store.View(), ids[1..], dryRun, one, goal)
            case Err(e) => goal == Err(e)
  {
    ghost var before := store.View();
    ReadyToRepair(read, before, ids);
    TrackGoesOn(read, before, ids, dryRun, fixes, goal);
    var one := RepairOne(store, read, ids[0], dryRun);
    if one.Err? {
      return one;
    }
    NextIsReady(read, before, store.View(), ids, dryRun);
    return Ok(fixes + one.value);
  }

  lemma TrackEnds(read: World, now: World, dryRun: bool, fixes: seq<Fix>, goal: Goal)
    requires OnTrack(read, now, [], dryRun, fixes, goal)
    ensures goal == Ok(Outcome(now, fixes))
  {
    assert fixes + [] == fixes;
  }

  method RepairEach(store: Tables, read: World, listed: seq<DocumentId>, dryRun: bool, ghost goal: Goal)
      returns (r: Result<seq<Fix>, FolderError>)
    requires Ready(read, store.View(), listed) && OnTrack(read, store.View(), listed, dryRun, [], goal)
    modifies store`folders, store`nextFolder, store`documents
    ensures match goal
            case Ok(o) => r == Ok(o.fixes) && store.View() == o.world
            case Err(e) => r == Err(e)
  {
    var fixes: seq<Fix> := [];
    var left := listed;
    while left != []
      invariant Ready(read, store.View(), left) && OnTrack(read, store.View(), left, dryRun, fixes, goal)
      decreases |left|
    {
      r := RepairNext(store, read, left, dryRun, fixes, goal);
      if r.Err? {
        return;
      }
      fixes := r.value;
      left := left[1..];
    }
    TrackEnds(read, store.View(), dryRun, fixes, goal);
    return Ok(fixes);
  }

  /** The whole command, in one transaction: `listed` are the live documents of archived projects in
    * the order of their ids. */
  method RepairArchivedFolders(store: Tables, listed: seq<DocumentId>, dryRun: bool)
      returns (r: Result<seq<Fix>, FolderError>)
    requires SoundWorld(store.View())
    requires listed == InOrder(Due(store.View()))
    modifies store
    ensures Answered(RepairAll(old(store.View()), dryRun), old(store.View()), store.View(), r)
  {
    var read := Folders.World(store.folders, store.projects, store.documents, store.nextFolder, store.nextDocument);
    TrackBegins(read, dryRun);
    r := RepairInTransaction(store, read, listed, dryRun, RepairAll(read, dryRun));
  }

  ghost predicate Answered(goal: Goal, before: World, after: World, r: Result<seq<Fix>, FolderError>) {
    match goal
    case Ok(o) => r == Ok(o.fixes) && after == o.world
    case Err(e) => r == Err(e) && after == before
  }

  method RepairInTransaction(store: Tables, read: World, listed: seq<DocumentId>, dryRun: bool, ghost goal: Goal)
      returns (r: Result<seq<Fix>, FolderError>)
    requires read == store.View()
    requires Ready(read, read, listed) && OnTrack(read, read, listed, dryRun, [], goal)
    modifies store
    ensures Answered(goal, read, store.View(), r)
  {
    r := RepairEach(store, read, listed, dryRun, goal);
    if r.Err? {
      store.folders, store.nextFolder, store.documents := read.folders, read.nextFolder, read.documents;
    }
  }
}
