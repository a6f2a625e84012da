/** The folder graph stays a forest whose children share their parent's project or hang below a
  * public folder, through every folder, project and document request. */
module FolderGraph {
  import opened Prelude
  import opened Forest
  import opened Folders

  /** A child belongs to its parent's project, or its parent is public. */
  predicate Shares(t: Tree) {
    forall x <- t :: t[x].parent.Some? && t[x].parent.value in t ==>
      var p := t[t[x].parent.value].project; p == t[x].project || p == None
  }

  /** ... and only a project's archive container hangs below a public folder. */
  predicate SharesStrictly(t: Tree) {
    forall x <- t :: t[x].parent.Some? && t[x].parent.value in t ==>
      var p := t[t[x].parent.value].project;
      p == t[x].project || (p == None && t[x].code == ContainerCode(t[x].project.value))
  }

  ghost predicate SoundTree(t: Tree, next: FolderId) {
    IsForest(t) && Shares(t) && forall x <- t :: x < next
  }

  ghost predicate SoundWorld(w: World) {
    && SoundTree(w.folders, w.nextFolder)
    && (forall d <- w.documents :: w.documents[d].folder in w.folders && d < w.nextDocument)
  }

  // ---------------------------------------------------------------- tree edits

  lemma AddLeaf(t: Tree, next: FolderId, row: Folder)
    requires SoundTree(t, next)
    requires row.parent.Some? ==>
               row.parent.value in t && (t[row.parent.value].project == row.project || t[row.parent.value].project == None)
    ensures SoundTree(t[next := row], next + 1)
    ensures SharesStrictly(t) && (row.parent.Some? ==>
              t[row.parent.value].project == row.project
              || (row.project.Some? && row.code == ContainerCode(row.project.value)))
            ==> SharesStrictly(t[next := row])
  {
    var u := t[next := row];
    if row.parent.Some? {
      assert ClearOf(t, row.parent, {next}) by {
        forall n: nat | Up(t, row.parent, n).Some? ensures Up(t, row.parent, n).value != next {
          UpInside(t, row.parent.value, n);
        }
      }
    }
    ReparentKeepsForest(t, u, {next}, row.parent);
  }

  /** Columns other than parent and project do not matter to the graph. */
  lemma PatchRow(t: Tree, next: FolderId, x: FolderId, row: Folder)
    requires SoundTree(t, next) && x in t && row.parent == t[x].parent && row.project == t[x].project
    ensures SoundTree(t[x := row], next)
    ensures SharesStrictly(t) && row.code == t[x].code ==> SharesStrictly(t[x := row])
  {
    var u := t[x := row];
    assert AgreeOutside(t, u, {});
    ReparentKeepsForest(t, u, {}, None);
  }

  lemma MoveRows(t: Tree, next: FolderId, u: Tree, moved: set<FolderId>, target: Option<FolderId>)
    requires SoundTree(t, next) && u.Keys == t.Keys && moved <= t.Keys
    requires forall x <- t :: u[x].project == t[x].project && u[x].parent == (if x in moved then target else t[x].parent)
    requires target.Some? ==> target.value in t && ClearOf(t, target, moved)
    requires target.Some? ==> forall x <- moved :: t[target.value].project == t[x].project || t[target.value].project == None
    ensures SoundTree(u, next)
  {
    ReparentKeepsForest(t, u, moved, target);
  }

  lemma RemoveLeaf(t: Tree, next: FolderId, x: FolderId)
    requires SoundTree(t, next) && !HasChild(t, x)
    ensures SoundTree(t - {x}, next)
    ensures SharesStrictly(t) ==> SharesStrictly(t - {x})
  {
    var u := t - {x};
    ReparentKeepsForest(t, u, {x}, None);
  }

  /** Above a public folder everything is public. */
  lemma {:induction false} PublicAbove(t: Tree, x: FolderId, n: nat)
    requires Closed(t) && Shares(t) && x in t && t[x].project == None && Up(t, Some(x), n).Some?
    ensures Up(t, Some(x), n).value in t && t[Up(t, Some(x), n).value].project == None
    decreases n
  {
    if n > 0 && t[x].parent.Some? {
      PublicAbove(t, t[x].parent.value, n - 1);
    }
  }

  lemma PublicIsClear(t: Tree, x: FolderId, moved: set<FolderId>)
    requires Closed(t) && Shares(t) && x in t && t[x].project == None
    requires forall m <- moved :: m in t ==> t[m].project.Some?
    ensures ClearOf(t, Some(x), moved)
  {
    forall n: nat | Up(t, Some(x), n).Some? ensures Up(t, Some(x), n).value !in moved {
      PublicAbove(t, x, n);
    }
  }

  // ---------------------------------------------------------------- get-or-create chain

  lemma ArchiveRootIsSound(t: Tree, next: FolderId)
    requires SoundTree(t, next)
    ensures var r := GetArchiveRoot(t, next);
            && SoundTree(r.folders, r.next) && r.id in r.folders && r.folders[r.id].project == None
            && r.folders[r.id].parent == None && r.next >= next
            && (SharesStrictly(t) ==> SharesStrictly(r.folders))
  {
    if ArchiveRoots(t) == {} {
      AddLeaf(t, next, GetArchiveRoot(t, next).folders[next]);
    } else {
      var r := Least(ArchiveRoots(t));
      PatchRow(t, next, r, GetArchiveRoot(t, next).folders[r]);
    }
  }

  lemma PlacedYearIsSound(t: Tree, next: FolderId, root: FolderId, year: nat)
    requires SoundTree(t, next) && root in t && t[root].project == None && PlaceYearFolder(t, next, root, year).Ok?
    ensures var y := PlaceYearFolder(t, next, root, year).value;
            && SoundTree(y.folders, y.next) && y.id in y.folders && y.folders[y.id].project == None
            && y.next >= next
            && (SharesStrictly(t) ==> SharesStrictly(y.folders))
  {
    var y := PlaceYearFolder(t, next, root, year).value;
    if YearFolders(t, root, year) == {} {
      AddLeaf(t, next, y.folders[y.id]);
    } else {
      PatchRow(t, next, y.id, y.folders[y.id]);
    }
  }

  lemma YearFolderIsSound(t: Tree, next: FolderId, year: nat)
    requires SoundTree(t, next) && GetYearFolder(t, next, year).Ok?
    ensures var y := GetYearFolder(t, next, year).value;
            && SoundTree(y.folders, y.next) && y.id in y.folders && y.folders[y.id].project == None
            && y.next >= next
            && (SharesStrictly(t) ==> SharesStrictly(y.folders))
  {
    ArchiveRootIsSound(t, next);
    var r := GetArchiveRoot(t, next);
    PlacedYearIsSound(r.folders, r.next, r.id, year);
  }

  lemma ContainerIsSound(t: Tree, next: FolderId, yearFolder: FolderId, p: ProjectId, title: string)
    requires SoundTree(t, next) && yearFolder in t && t[yearFolder].project == None
    requires GetContainer(t, next, yearFolder, p, title).Ok?
    ensures var c := GetContainer(t, next, yearFolder, p, title).value;
            && SoundTree(c.folders, c.next) && c.id in c.folders && c.folders[c.id].project == Some(p)
            && c.folders[c.id].parent == Some(yearFolder) && c.next >= next
            && yearFolder in c.folders && c.folders[yearFolder].project == None
            && (SharesStrictly(t) ==> SharesStrictly(c.folders))
  {
    var c := GetContainer(t, next, yearFolder, p, title).value;
    if Containers(t, p) == {} {
      AddLeaf(t, next, c.folders[c.id]);
    } else {
      PublicIsClear(t, yearFolder, {c.id});
      MoveRows(t, next, c.folders, {c.id}, Some(yearFolder));
    }
  }

  /** Moving the top-level folders of a project below its container. */
  lemma ContainingIsSound(t: Tree, next: FolderId, p: ProjectId, c: FolderId)
    requires SoundTree(t, next) && c in t && t[c].project == Some(p)
    requires t[c].parent.Some? && t[c].parent.value in t && t[t[c].parent.value].project == None
    ensures SoundTree(Reparented(t, TopLevel(t, p), Some(c)), next)
    ensures SharesStrictly(t) ==> SharesStrictly(Reparented(t, TopLevel(t, p), Some(c)))
  {
    var moved := TopLevel(t, p);
    var y := t[c].parent.value;
    PublicIsClear(t, y, moved);
    forall n: nat | Up(t, Some(c), n).Some? ensures Up(t, Some(c), n).value !in moved {
      if n > 0 {
        assert Up(t, Some(c), n) == Up(t, Some(y), n - 1);
      }
    }
    MoveRows(t, next, Reparented(t, moved, Some(c)), moved, Some(c));
  }

  lemma ArchiveKeepsSound(w: World, p: ProjectId, year: nat)
    requires SoundWorld(w) && ArchiveProject(w, p, year).Ok?
    ensures SoundWorld(ArchiveProject(w, p, year).value)
    ensures SharesStrictly(w.folders) ==> SharesStrictly(ArchiveProject(w, p, year).value.folders)
  {
    YearFolderIsSound(w.folders, w.nextFolder, year);
    var y := GetYearFolder(w.folders, w.nextFolder, year).value;
    ContainerIsSound(y.folders, y.next, y.id, p, w.projects[p].title);
    var c := GetContainer(y.folders, y.next, y.id, p, w.projects[p].title).value;
    ContainingIsSound(c.folders, c.next, p, c.id);
    KeysGrow(w, y, c, year, p);
  }

  lemma KeysGrow(w: World, y: Placed, c: Placed, year: nat, p: ProjectId)
    requires p in w.projects && GetYearFolder(w.folders, w.nextFolder, year) == Ok(y)
    requires GetContainer(y.folders, y.next, y.id, p, w.projects[p].title) == Ok(c)
    ensures w.folders.Keys <= y.folders.Keys <= c.folders.Keys
  {
  }

  lemma FreedIsSound(t: Tree, next: FolderId, moved: set<FolderId>)
    requires SoundTree(t, next) && moved <= t.Keys
    ensures var u := Reparented(t, moved, None); SoundTree(u, next) && (SharesStrictly(t) ==> SharesStrictly(u))
  {
    MoveRows(t, next, Reparented(t, moved, None), moved, None);
  }

  lemma EmptiedIsSound(t: Tree, next: FolderId, documents: map<DocumentId, Document>, c: FolderId)
    requires SoundTree(t, next)
    ensures var u := if HasChild(t, c) || HoldsDocument(documents, c) then t else t - {c};
            && SoundTree(u, next) && (SharesStrictly(t) ==> SharesStrictly(u))
            && (forall x <- t :: x !in u ==> !HoldsDocument(documents, x))
  {
    if !HasChild(t, c) {
      RemoveLeaf(t, next, c);
    }
  }

  lemma RestoredIsSound(t: Tree, next: FolderId, documents: map<DocumentId, Document>, p: ProjectId)
    requires SoundTree(t, next)
    ensures var u := Restored(t, documents, p);
            && SoundTree(u, next) && (SharesStrictly(t) ==> SharesStrictly(u))
            && (forall x <- t :: x !in u ==> !HoldsDocument(documents, x))
  {
    var found := Unarchivable(t, p);
    if found != {} {
      var c := FirstOf(t, found);
      FreedIsSound(t, next, ChildrenOf(t, p, c));
      EmptiedIsSound(Reparented(t, ChildrenOf(t, p, c), None), next, documents, c);
    }
  }

  lemma UnarchiveKeepsSound(w: World, p: ProjectId)
    requires SoundWorld(w) && UnarchiveProject(w, p).Ok?
    ensures SoundWorld(UnarchiveProject(w, p).value)
    ensures SharesStrictly(w.folders) ==> SharesStrictly(UnarchiveProject(w, p).value.folders)
  {
    RestoredIsSound(w.folders, w.nextFolder, w.documents, p);
    var after := UnarchiveProject(w, p).value;
    forall d | d in after.documents ensures after.documents[d].folder in after.folders {
      assert HoldsDocument(w.documents, w.documents[d].folder);
    }
  }

  lemma {:induction false} StandardFoldersAreSound(t: Tree, next: FolderId, p: ProjectId, definitions: seq<Definition>)
    requires SoundTree(t, next)
    ensures SoundTree(StandardFolders(t, next, p, definitions), next + |definitions|)
    ensures t.Keys <= StandardFolders(t, next, p, definitions).Keys
    ensures SharesStrictly(t) ==> SharesStrictly(StandardFolders(t, next, p, definitions))
    decreases |definitions|
  {
    if definitions != [] {
      var d := definitions[0];
      var row := Folder(Some(p), None, d.name, d.code, d.sortOrder, true, false);
      AddLeaf(t, next, row);
      StandardFoldersAreSound(t[next := row], next + 1, p, definitions[1..]);
    }
  }

  // ---------------------------------------------------------------- requests

  lemma CreateKeepsSound(w: World, project: Option<ProjectId>, parent: Option<FolderId>, name: string,
                         code: string, sortOrder: int, permitted: bool)
    requires SoundWorld(w) && CreateFolder(w, project, parent, name, code, sortOrder, permitted).Ok?
    ensures var after := CreateFolder(w, project, parent, name, code, sortOrder, permitted).value;
            SoundWorld(after) && (SharesStrictly(w.folders) ==> SharesStrictly(after.folders))
  {
    var after := CreateFolder(w, project, parent, name, code, sortOrder, permitted).value;
    AddLeaf(w.folders, w.nextFolder, after.folders[w.nextFolder]);
  }

  /** The check before a move is exactly what keeps the forest: refused moves are those that would
    * make a cycle. */
  lemma MoveKeepsSound(w: World, f: FolderId, parent: Option<FolderId>, sortOrder: Option<int>, permitted: bool)
    requires SoundWorld(w) && MoveFolder(w, f, parent, sortOrder, permitted).Ok?
    ensures var after := MoveFolder(w, f, parent, sortOrder, permitted).value;
            SoundWorld(after) && (SharesStrictly(w.folders) ==> SharesStrictly(after.folders))
  {
    var after := MoveFolder(w, f, parent, sortOrder, permitted).value;
    if parent.Some? {
      BelowOrSelf(w.folders, parent.value, f);
      NotBelowIsClear(w.folders, parent.value, f);
    }
    MoveRows(w.folders, w.nextFolder, after.folders, {f}, parent);
  }

  /** Had the move been made without the check, the graph would have a cycle exactly when the check
    * refuses: moves to oneself or to a descendant. */
  lemma MoveCheckIsExact(w: World, f: FolderId, parent: FolderId)
    requires SoundWorld(w) && f in w.folders && parent in w.folders
    requires w.folders[parent].project == w.folders[f].project
    ensures IsForest(w.folders[f := w.folders[f].(parent := Some(parent))]) <==>
              parent != f && !ProperlyBelow(w.folders, parent, f)
  {
    var t := w.folders;
    var u := t[f := t[f].(parent := Some(parent))];
    if parent != f && !ProperlyBelow(t, parent, f) {
      BelowOrSelf(t, parent, f);
      NotBelowIsClear(t, parent, f);
      MoveRows(t, w.nextFolder, u, {f}, Some(parent));
    } else {
      if parent == f {
        BelowSelf(t, f);
      } else {
        var n: nat :| n > 0 && Up(t, Some(parent), n) == Some(f);
      }
      MoveBelowMakesCycle(t, u, f, parent);
      if IsForest(u) {
        NoCycles(u, f);
      }
    }
  }

  lemma UpdateKeepsSound(w: World, f: FolderId, name: Option<string>, code: Option<string>,
                         sortOrder: Option<int>, permitted: bool)
    requires SoundWorld(w) && UpdateFolder(w, f, name, code, sortOrder, permitted).Ok?
    ensures SoundWorld(UpdateFolder(w, f, name, code, sortOrder, permitted).value)
  {
    var after := UpdateFolder(w, f, name, code, sortOrder, permitted).value;
    PatchRow(w.folders, w.nextFolder, f, after.folders[f]);
  }

  /** A folder update keeps the strict form of sharing unless it takes the container's code away from
    * a folder that hangs below a public one. */
  lemma UpdateKeepsStrictSharingExactly(w: World, f: FolderId, name: Option<string>, code: Option<string>,
                                        sortOrder: Option<int>, permitted: bool)
    requires SoundWorld(w) && SharesStrictly(w.folders)
    requires UpdateFolder(w, f, name, code, sortOrder, permitted).Ok?
    ensures SharesStrictly(UpdateFolder(w, f, name, code, sortOrder, permitted).value.folders) <==>
              !(code.Some? && code.value != w.folders[f].code && w.folders[f].project.Some?
                && w.folders[f].parent.Some? && w.folders[w.folders[f].parent.value].project == None)
  {
    var t := w.folders;
    var u := UpdateFolder(w, f, name, code, sortOrder, permitted).value.folders;
    assert forall x <- t :: x != f ==> u[x] == t[x];
    if code.Some? && code.value != t[f].code && t[f].parent.Some? {
      var p := t[f].parent.value;
      assert p in t && u[p].project == t[p].project;
      if t[f].project.Some? && t[p].project == None {
        assert t[f].code == ContainerCode(t[f].project.value) != u[f].code;
        assert u[f].parent.value in u && u[u[f].parent.value].project != u[f].project;
      }
    }
  }

  lemma DisableKeepsSound(w: World, f: FolderId, permitted: bool)
    requires SoundWorld(w) && DisableFolder(w, f, permitted).Ok?
    ensures var after := DisableFolder(w, f, permitted).value;
            SoundWorld(after) && (SharesStrictly(w.folders) ==> SharesStrictly(after.folders))
  {
    PatchRow(w.folders, w.nextFolder, f, w.folders[f].(active := false));
  }

  lemma CreateProjectKeepsSound(w: World, p: ProjectId, title: string)
    requires SoundWorld(w) && CreateProject(w, p, title).Ok?
    ensures var after := CreateProject(w, p, title).value;
            SoundWorld(after) && (SharesStrictly(w.folders) ==> SharesStrictly(after.folders))
  {
    StandardFoldersAreSound(w.folders, w.nextFolder, p, STANDARD_ROOTS);
  }
}
