/** Runs of folder, project and document requests, and the round trip of archiving a project. */
module FolderRuns {
  import opened Prelude
  import opened Forest
  import opened Folders
  import opened FolderGraph
  import opened ProjectDeletion
  import opened RepairGraph

  datatype Step =
    | Create(project: Option<ProjectId>, parent: Option<FolderId>, name: string, code: string, sortOrder: int,
             permitted: bool)
    | Update(folder: FolderId, newName: Option<string>, newCode: Option<string>, newOrder: Option<int>, permitted: bool)
    | Move(folder: FolderId, parent: Option<FolderId>, newOrder: Option<int>, permitted: bool)
    | Disable(folder: FolderId, permitted: bool)
    | NewProject(id: ProjectId, title: string)
    | Archive(id: ProjectId, year: nat)
    | Unarchive(id: ProjectId)
    | Delete(id: ProjectId)
    | Upload(folder: FolderId, acceptable: bool)
    | Refile(document: DocumentId, folder: FolderId, acceptable: bool)
    | SetDeleted(document: DocumentId, deleted: bool, acceptable: bool)
    | Purge(document: DocumentId, permitted: bool)

  ghost function Serve(w: World, s: Step): Result<World, FolderError> {
    match s
    case Create(project, parent, name, code, order, permitted) =>
      CreateFolder(w, project, parent, name, code, order, permitted)
    case Update(f, name, code, order, permitted) => UpdateFolder(w, f, name, code, order, permitted)
    case Move(f, parent, order, permitted) => MoveFolder(w, f, parent, order, permitted)
    case Disable(f, permitted) => DisableFolder(w, f, permitted)
    case NewProject(p, title) => CreateProject(w, p, title)
    case Archive(p, year) => ArchiveProject(w, p, year)
    case Unarchive(p) => UnarchiveProject(w, p)
    case Delete(p) => DeleteProject(w, p)
    case Upload(f, acceptable) => AddDocument(w, f, acceptable)
    case Refile(d, f, acceptable) => MoveDocument(w, d, f, acceptable)
    case SetDeleted(d, deleted, acceptable) => SetDocumentDeleted(w, d, deleted, acceptable)
    case Purge(d, permitted) => PurgeDocument(w, d, permitted)
  }

  /** A refused request leaves the rows as they were. */
  ghost function Next(w: World, s: Step): World {
    var r := Serve(w, s);
    if r.Ok? then r.value else w
  }

  ghost function Run(w: World, steps: seq<Step>): World
    decreases |steps|
  {
    if steps == [] then w else Run(Next(w, steps[0]), steps[1..])
  }

  // ---------------------------------------------------------------- every reachable graph

  lemma StepKeepsSound(w: World, s: Step)
    requires SoundWorld(w)
    ensures SoundWorld(Next(w, s))
  {
    if Serve(w, s).Ok? {
      match s
      case Create(project, parent, name, code, order, permitted) =>
        CreateKeepsSound(w, project, parent, name, code, order, permitted);
      case Update(f, name, code, order, permitted) => UpdateKeepsSound(w, f, name, code, order, permitted);
      case Move(f, parent, order, permitted) => MoveKeepsSound(w, f, parent, order, permitted);
      case Disable(f, permitted) => DisableKeepsSound(w, f, permitted);
      case NewProject(p, title) => CreateProjectKeepsSound(w, p, title);
      case Archive(p, year) => ArchiveKeepsSound(w, p, year);
      case Unarchive(p) => UnarchiveKeepsSound(w, p);
      case Delete(p) => DeleteKeepsSound(w, p);
      case _ =>
    }
  }

  /** Every folder graph reached from a sound one is a forest in which a folder hangs below its own
    * project or below a public folder, and every document lies in a folder. */
  lemma {:induction false} RunKeepsSound(w: World, steps: seq<Step>)
    requires SoundWorld(w)
    ensures SoundWorld(Run(w, steps))
    decreases |steps|
  {
    if steps != [] {
      StepKeepsSound(w, steps[0]);
      RunKeepsSound(Next(w, steps[0]), steps[1..]);
    }
  }

  /** A step that gives a folder under a public parent a code of its own. */
  predicate RecodesContainer(w: World, s: Step) {
    s.Update? && s.newCode.Some? && s.folder in w.folders && w.folders[s.folder].project.Some?
    && s.newCode.value != w.folders[s.folder].code
    && w.folders[s.folder].parent.Some? && w.folders[s.folder].parent.value in w.folders
    && w.folders[w.folders[s.folder].parent.value].project == None
  }

  ghost predicate NeverRecodes(w: World, steps: seq<Step>)
    decreases |steps|
  {
    steps == [] || ((Serve(w, steps[0]).Ok? ==> !RecodesContainer(w, steps[0]))
                    && NeverRecodes(Next(w, steps[0]), steps[1..]))
  }

  lemma StepKeepsStrictSharing(w: World, s: Step)
    requires SoundWorld(w) && SharesStrictly(w.folders)
    ensures SharesStrictly(Next(w, s).folders) <==> !(Serve(w, s).Ok? && RecodesContainer(w, s))
  {
    if Serve(w, s).Ok? {
      match s
      case Create(project, parent, name, code, order, permitted) =>
        CreateKeepsSound(w, project, parent, name, code, order, permitted);
      case Update(f, name, code, order, permitted) =>
        UpdateKeepsStrictSharingExactly(w, f, name, code, order, permitted);
      case Move(f, parent, order, permitted) => MoveKeepsSound(w, f, parent, order, permitted);
      case Disable(f, permitted) => DisableKeepsSound(w, f, permitted);
      case NewProject(p, title) => CreateProjectKeepsSound(w, p, title);
      case Archive(p, year) => ArchiveKeepsSound(w, p, year);
      case Unarchive(p) => UnarchiveKeepsSound(w, p);
      case Delete(p) => DeleteKeepsSound(w, p);
      case _ =>
    }
  }

  /** Until somebody changes the code of a folder that hangs below a public one, the only such
    * folders are archive containers. */
  lemma {:induction false} RunKeepsStrictSharing(w: World, steps: seq<Step>)
    requires SoundWorld(w) && SharesStrictly(w.folders) && NeverRecodes(w, steps)
    ensures SharesStrictly(Run(w, steps).folders)
    decreases |steps|
  {
    if steps != [] {
      StepKeepsSound(w, steps[0]);
      StepKeepsStrictSharing(w, steps[0]);
      RunKeepsStrictSharing(Next(w, steps[0]), steps[1..]);
    }
  }

  // ---------------------------------------------------------------- an archived project is frozen

  /** The project keeps its folders, row by row, and no public folder goes. */
  ghost predicate Frozen(t: Tree, u: Tree, p: ProjectId) {
    && (forall x <- t :: t[x].project == Some(p) ==> x in u && u[x] == t[x])
    && (forall x <- u :: u[x].project == Some(p) ==> x in t && t[x].project == Some(p))
    && (forall x <- t :: t[x].project == None ==> x in u && u[x].project == None)
  }

  predicate Touches(s: Step, p: ProjectId) {
    (s.Archive? || s.Unarchive? || s.Delete?) && s.id == p
  }

  predicate IsArchived(w: World, p: ProjectId) {
    p in w.projects && w.projects[p].status == Archived
  }

  lemma FrozenTransitive(t: Tree, u: Tree, v: Tree, p: ProjectId)
    requires Frozen(t, u, p) && Frozen(u, v, p)
    ensures Frozen(t, v, p)
  {
  }

  lemma RootFreezes(t: Tree, next: FolderId, p: ProjectId)
    requires forall x <- t :: x < next
    ensures Frozen(t, GetArchiveRoot(t, next).folders, p)
  {
    if ArchiveRoots(t) != {} {
      var r := Least(ArchiveRoots(t));
      assert t[r].project == None;
    }
  }

  lemma PlacedYearFreezes(t: Tree, next: FolderId, root: FolderId, year: nat, p: ProjectId)
    requires (forall x <- t :: x < next) && PlaceYearFolder(t, next, root, year).Ok?
    ensures Frozen(t, PlaceYearFolder(t, next, root, year).value.folders, p)
  {
    if YearFolders(t, root, year) != {} {
      var y := Least(YearFolders(t, root, year));
      assert t[y].project == None;
    }
  }

  /** The public part of the chain changes no row of any project. */
  lemma ChainFreezes(t: Tree, next: FolderId, year: nat, p: ProjectId)
    requires SoundTree(t, next) && GetYearFolder(t, next, year).Ok?
    ensures Frozen(t, GetYearFolder(t, next, year).value.folders, p)
  {
    ArchiveRootIsSound(t, next);
    RootFreezes(t, next, p);
    var r := GetArchiveRoot(t, next);
    PlacedYearFreezes(r.folders, r.next, r.id, year, p);
    FrozenTransitive(t, r.folders, GetYearFolder(t, next, year).value.folders, p);
  }

  lemma ContainerFreezesOthers(t: Tree, next: FolderId, yearFolder: FolderId, q: ProjectId, title: string, p: ProjectId)
    requires (forall x <- t :: x < next) && p != q && GetContainer(t, next, yearFolder, q, title).Ok?
    ensures Frozen(t, GetContainer(t, next, yearFolder, q, title).value.folders, p)
  {
    if Containers(t, q) != {} {
      var c := Least(Containers(t, q));
      assert t[c].project == Some(q);
    }
  }

  lemma GatheringFreezesOthers(t: Tree, q: ProjectId, c: FolderId, p: ProjectId)
    requires p != q
    ensures Frozen(t, Reparented(t, TopLevel(t, q), Some(c)), p)
  {
  }

  lemma ArchiveFreezesOthers(w: World, q: ProjectId, year: nat, p: ProjectId)
    requires SoundWorld(w) && p != q && ArchiveProject(w, q, year).Ok?
    ensures Frozen(w.folders, ArchiveProject(w, q, year).value.folders, p)
  {
    var t := w.folders;
    ChainFreezes(t, w.nextFolder, year, p);
    YearFolderIsSound(t, w.nextFolder, year);
    var y := GetYearFolder(t, w.nextFolder, year).value;
    ContainerFreezesOthers(y.folders, y.next, y.id, q, w.projects[q].title, p);
    var c := GetContainer(y.folders, y.next, y.id, q, w.projects[q].title).value;
    GatheringFreezesOthers(c.folders, q, c.id, p);
    FrozenTransitive(t, y.folders, c.folders, p);
    FrozenTransitive(t, c.folders, ArchiveProject(w, q, year).value.folders, p);
  }

  lemma UnarchiveFreezesOthers(w: World, q: ProjectId, p: ProjectId)
    requires p != q && UnarchiveProject(w, q).Ok?
    ensures Frozen(w.folders, UnarchiveProject(w, q).value.folders, p)
  {
  }

  lemma {:induction false} StandardFoldersFreezeOthers(t: Tree, next: FolderId, q: ProjectId, definitions: seq<Definition>,
                                      p: ProjectId)
    requires p != q && forall x <- t :: x < next
    ensures Frozen(t, StandardFolders(t, next, q, definitions), p)
    decreases |definitions|
  {
    if definitions != [] {
      var d := definitions[0];
      var u := t[next := Folder(Some(q), None, d.name, d.code, d.sortOrder, true, false)];
      StandardFoldersFreezeOthers(u, next + 1, q, definitions[1..], p);
      FrozenTransitive(t, u, StandardFolders(t, next, q, definitions), p);
    }
  }

  lemma CreateFreezes(w: World, s: Step, p: ProjectId)
    requires SoundWorld(w) && IsArchived(w, p) && Serve(w, s).Ok? && s.Create?
    ensures Frozen(w.folders, Next(w, s).folders, p) && IsArchived(Next(w, s), p)
  {
  }

  lemma MoveFreezes(w: World, s: Step, p: ProjectId)
    requires SoundWorld(w) && IsArchived(w, p) && Serve(w, s).Ok? && s.Move?
    ensures Frozen(w.folders, Next(w, s).folders, p) && IsArchived(Next(w, s), p)
  {
  }

  lemma FolderRequestFreezes(w: World, s: Step, p: ProjectId)
    requires SoundWorld(w) && IsArchived(w, p) && Serve(w, s).Ok?
    requires s.Create? || s.Update? || s.Move? || s.Disable?
    ensures Frozen(w.folders, Next(w, s).folders, p) && IsArchived(Next(w, s), p)
  {
    match s
    case Create(_, _, _, _, _, _) => CreateFreezes(w, s, p);
    case Move(_, _, _, _) => MoveFreezes(w, s, p);
    case _ =>
  }

  lemma DocumentRequestFreezes(w: World, s: Step, p: ProjectId)
    requires SoundWorld(w) && IsArchived(w, p) && !Touches(s, p) && Serve(w, s).Ok?
    requires s.Delete? || s.Upload? || s.Refile? || s.SetDeleted? || s.Purge?
    ensures Frozen(w.folders, Next(w, s).folders, p) && IsArchived(Next(w, s), p)
  {
  }

  lemma StepFreezes(w: World, s: Step, p: ProjectId)
    requires SoundWorld(w) && IsArchived(w, p) && !Touches(s, p)
    ensures Frozen(w.folders, Next(w, s).folders, p) && IsArchived(Next(w, s), p)
  {
    if Serve(w, s).Ok? {
      match s
      case Archive(q, year) => ArchiveFreezesOthers(w, q, year, p);
      case Unarchive(q) => UnarchiveFreezesOthers(w, q, p);
      case NewProject(q, title) => StandardFoldersFreezeOthers(w.folders, w.nextFolder, q, STANDARD_ROOTS, p);
      case Create(_, _, _, _, _, _) => FolderRequestFreezes(w, s, p);
      case Update(_, _, _, _, _) => FolderRequestFreezes(w, s, p);
      case Move(_, _, _, _) => FolderRequestFreezes(w, s, p);
      case Disable(_, _) => FolderRequestFreezes(w, s, p);
      case _ => DocumentRequestFreezes(w, s, p);
    }
  }

  lemma {:induction false} RunFreezes(w: World, steps: seq<Step>, p: ProjectId)
    requires SoundWorld(w) && IsArchived(w, p) && forall s <- steps :: !Touches(s, p)
    ensures Frozen(w.folders, Run(w, steps).folders, p) && IsArchived(Run(w, steps), p)
    ensures SoundWorld(Run(w, steps))
    decreases |steps|
  {
    if steps != [] {
      var next := Next(w, steps[0]);
      StepKeepsSound(w, steps[0]);
      StepFreezes(w, steps[0], p);
      RunFreezes(next, steps[1..], p);
      FrozenTransitive(w.folders, next.folders, Run(w, steps).folders, p);
    }
  }

  // ---------------------------------------------------------------- archive, then unarchive

  /** The container that archiving settles on. */
  ghost function ContainerOf(w: World, p: ProjectId, year: nat): FolderId
    requires ArchiveProject(w, p, year).Ok?
  {
    var y := GetYearFolder(w.folders, w.nextFolder, year).value;
    GetContainer(y.folders, y.next, y.id, p, w.projects[p].title).value.id
  }

  /** Archiving touches two columns of the project's rows only: the container's, and the parent of
    * what was at the top. */
  ghost predicate Gathered(t: Tree, u: Tree, p: ProjectId, c: FolderId) {
    && Containers(u, p) == {c} && u[c].parent.Some? && u[c].parent.value in u && u[u[c].parent.value].project == None
    && (forall x <- t :: t[x].project == Some(p) && x != c ==>
          x in u && u[x] == (if t[x].parent == None then t[x].(parent := Some(c)) else t[x]))
    && (forall x <- u :: u[x].project == Some(p) && x != c ==> x in t && t[x].project == Some(p))
    && (forall x :: x in t && t[x].project == None ==> x in u)
  }

  lemma GatherTop(t: Tree, y: Tree, k: Tree, p: ProjectId, c: FolderId)
    requires Frozen(t, y, p) && Containers(k, p) == {c} && (forall x <- y :: x != c ==> x in k && k[x] == y[x])
    requires (forall x <- k :: x != c ==> x in y) && c in k && k[c].project == Some(p)
    requires k[c].parent.Some? && k[c].parent.value in k && k[k[c].parent.value].project == None
    ensures Gathered(t, Reparented(k, TopLevel(k, p), Some(c)), p, c)
  {
    var u := Reparented(k, TopLevel(k, p), Some(c));
    assert u.Keys == k.Keys;
    forall x ensures x in Containers(u, p) <==> x in Containers(k, p) {
    }
    assert Containers(u, p) == {c};
  }

  lemma ArchiveGathers(w: World, p: ProjectId, year: nat)
    requires SoundWorld(w) && ArchiveProject(w, p, year).Ok?
    ensures Gathered(w.folders, ArchiveProject(w, p, year).value.folders, p, ContainerOf(w, p, year))
  {
    ChainFreezes(w.folders, w.nextFolder, year, p);
    YearFolderIsSound(w.folders, w.nextFolder, year);
    var y := GetYearFolder(w.folders, w.nextFolder, year).value;
    ContainerIsSound(y.folders, y.next, y.id, p, w.projects[p].title);
    ContainerIsOnly(y.folders, y.next, y.id, p, w.projects[p].title);
    var c := GetContainer(y.folders, y.next, y.id, p, w.projects[p].title).value;
    GatherTop(w.folders, y.folders, c.folders, p, c.id);
  }

  lemma ContainerIsOnly(t: Tree, next: FolderId, yearFolder: FolderId, p: ProjectId, title: string)
    requires (forall x <- t :: x < next) && GetContainer(t, next, yearFolder, p, title).Ok?
    ensures var c := GetContainer(t, next, yearFolder, p, title).value;
            && Containers(c.folders, p) == {c.id}
            && (forall x <- t :: x != c.id ==> x in c.folders && c.folders[x] == t[x])
            && (forall x <- c.folders :: x != c.id ==> x in t)
  {
    var c := GetContainer(t, next, yearFolder, p, title).value;
    if Containers(t, p) == {} {
      assert forall x <- t :: c.folders[x] == t[x];
    } else {
      assert Containers(t, p) == {c.id};
      assert forall x <- t :: x in Containers(c.folders, p) <==> x in Containers(t, p);
    }
  }

  /** What unarchiving leaves of a frozen archived project. */
  ghost predicate Released(u: Tree, v: Tree, documents: map<DocumentId, Document>, p: ProjectId, c: FolderId) {
    && (c in v <==> HoldsDocument(documents, c))
    && (forall x <- u :: u[x].project == Some(p) && x != c ==>
          x in v && v[x] == (if u[x].parent == Some(c) then u[x].(parent := None) else u[x]))
    && (forall x <- v :: v[x].project == Some(p) ==> x in u && u[x].project == Some(p))
  }

  lemma UnarchiveReleases(w: World, p: ProjectId, c: FolderId)
    requires SoundWorld(w) && IsArchived(w, p) && Containers(w.folders, p) == {c}
    requires w.folders[c].parent.Some? && w.folders[c].parent.value in w.folders
    requires w.folders[w.folders[c].parent.value].project == None
    ensures UnarchiveProject(w, p).Ok?
    ensures Released(w.folders, UnarchiveProject(w, p).value.folders, w.documents, p, c)
  {
    var t := w.folders;
    assert Unarchivable(t, p) == {c};
    assert FirstOf(t, {c}) == c;
    var freed := Reparented(t, ChildrenOf(t, p, c), None);
    assert !HasChild(freed, c) by {
      if HasChild(freed, c) {
        assert false;
      }
    }
  }

  lemma FrozenKeepsContainers(t: Tree, u: Tree, p: ProjectId, c: FolderId)
    requires Frozen(t, u, p) && Containers(t, p) == {c} && t[c].parent.Some? && t[c].parent.value in t
    requires t[t[c].parent.value].project == None
    ensures Containers(u, p) == {c} && u[c].parent.Some? && u[c].parent.value in u && u[u[c].parent.value].project == None
  {
    assert c in Containers(t, p);
    forall x ensures x in Containers(u, p) <==> x == c {
      assert x in Containers(u, p) ==> x in Containers(t, p);
    }
  }

  /** Every folder of the project is back as it was if and only if the container had no child of the
    * project; none is new; and the container stays if and only if a document lies in it. */
  ghost predicate Undone(t: Tree, after: Tree, documents: map<DocumentId, Document>, p: ProjectId, c: FolderId) {
    && (ChildrenOf(t, p, c) == {} <==>
          forall x <- t :: t[x].project == Some(p) && x != c ==> x in after && after[x] == t[x])
    && (forall x <- after :: after[x].project == Some(p) && x != c ==> x in t)
    && (c in after <==> HoldsDocument(documents, c))
  }

  /** Unarchiving undoes archiving, whatever is requested in between. */
  lemma UnarchiveUndoesArchive(w: World, p: ProjectId, year: nat, steps: seq<Step>)
    requires SoundWorld(w) && ArchiveProject(w, p, year).Ok?
    requires forall s <- steps :: !Touches(s, p)
    ensures var c := ContainerOf(w, p, year);
            var before := Run(ArchiveProject(w, p, year).value, steps);
            && UnarchiveProject(before, p).Ok?
            && SoundWorld(UnarchiveProject(before, p).value)
            && Undone(w.folders, UnarchiveProject(before, p).value.folders, before.documents, p, c)
  {
    var c := ContainerOf(w, p, year);
    var archived := ArchiveProject(w, p, year).value;
    ArchiveKeepsSound(w, p, year);
    ArchiveGathers(w, p, year);
    UndoneAfter(w.folders, archived, p, c, steps);
  }

  lemma UndoneAfter(t: Tree, archived: World, p: ProjectId, c: FolderId, steps: seq<Step>)
    requires IsForest(t) && SoundWorld(archived) && IsArchived(archived, p) && Gathered(t, archived.folders, p, c)
    requires forall s <- steps :: !Touches(s, p)
    ensures var before := Run(archived, steps);
            && UnarchiveProject(before, p).Ok?
            && SoundWorld(UnarchiveProject(before, p).value)
            && Undone(t, UnarchiveProject(before, p).value.folders, before.documents, p, c)
  {
    RunFreezes(archived, steps, p);
    var before := Run(archived, steps);
    FrozenKeepsContainers(archived.folders, before.folders, p, c);
    UnarchiveReleases(before, p, c);
    UnarchiveKeepsSound(before, p);
    RoundTrip(t, archived.folders, before.folders, UnarchiveProject(before, p).value.folders,
              before.documents, p, c);
  }

  lemma RoundTrip(t: Tree, u: Tree, v: Tree, after: Tree, documents: map<DocumentId, Document>, p: ProjectId, c: FolderId)
    requires IsForest(t) && Gathered(t, u, p, c) && Frozen(u, v, p) && Released(v, after, documents, p, c)
    ensures Undone(t, after, documents, p, c)
  {
    if c in t {
      NoCycles(t, c);
      assert Up(t, Some(c), 1) == t[c].parent;
    }
    forall x | x in t && t[x].project == Some(p) && x != c
      ensures x in after && (after[x] == t[x] <==> t[x].parent != Some(c)) {
      assert x in u && u[x].project == Some(p);
      assert x in v && v[x] == u[x];
    }
    if ChildrenOf(t, p, c) == {} {
      forall x | x in t && t[x].project == Some(p) && x != c ensures x in after && after[x] == t[x] {
        assert x !in ChildrenOf(t, p, c);
      }
    } else {
      var x :| x in ChildrenOf(t, p, c);
      assert x != c && x in after && after[x] != t[x];
    }
  }

  // ---------------------------------------------------------------- documents and their folders

  /** Every document lies in a folder of its own project. */
  ghost predicate Owned(w: World) {
    forall d <- w.documents :: w.documents[d].folder in w.folders
                               && w.folders[w.documents[d].folder].project == w.documents[d].project
  }

  /** Folders stay with their project, and no folder with a document goes. */
  ghost predicate KeepsOwners(t: Tree, u: Tree, documents: map<DocumentId, Document>) {
    forall x <- t :: if x in u then u[x].project == t[x].project else !HoldsDocument(documents, x)
  }

  lemma OwnedByKept(w: World, v: World)
    requires Owned(w) && KeepsOwners(w.folders, v.folders, w.documents) && v.documents == w.documents
    ensures Owned(v)
  {
    forall d | d in w.documents ensures w.documents[d].folder in v.folders {
      assert HoldsDocument(w.documents, w.documents[d].folder);
    }
  }

  lemma ArchiveKeepsOwned(w: World, p: ProjectId, year: nat)
    requires SoundWorld(w) && Owned(w) && ArchiveProject(w, p, year).Ok?
    ensures Owned(ArchiveProject(w, p, year).value)
  {
    YearIsPlacedSoundly(w.folders, w.nextFolder, year);
    var y := GetYearFolder(w.folders, w.nextFolder, year).value;
    ContainerIsPlacedSoundly(y.folders, y.next, y.id, p, w.projects[p].title);
    OwnedByKept(w, ArchiveProject(w, p, year).value);
  }

  lemma UnarchiveKeepsOwned(w: World, p: ProjectId)
    requires SoundWorld(w) && Owned(w) && UnarchiveProject(w, p).Ok?
    ensures Owned(UnarchiveProject(w, p).value)
  {
    RestoredIsSound(w.folders, w.nextFolder, w.documents, p);
    OwnedByKept(w, UnarchiveProject(w, p).value);
  }

  lemma {:induction false} StandardFoldersKeepRows(t: Tree, next: FolderId, p: ProjectId, definitions: seq<Definition>)
    requires forall x <- t :: x < next
    ensures Grown(t, StandardFolders(t, next, p, definitions))
    decreases |definitions|
  {
    if definitions != [] {
      var d := definitions[0];
      StandardFoldersKeepRows(t[next := Folder(Some(p), None, d.name, d.code, d.sortOrder, true, false)], next + 1, p,
                              definitions[1..]);
    }
  }

  lemma DeleteKeepsOwned(w: World, p: ProjectId)
    requires Owned(w) && DeleteProject(w, p).Ok?
    ensures Owned(DeleteProject(w, p).value)
  {
  }

  lemma FolderRequestKeepsOwned(w: World, s: Step)
    requires SoundWorld(w) && Owned(w) && Serve(w, s).Ok?
    requires s.Create? || s.Update? || s.Move? || s.Disable?
    ensures Owned(Next(w, s))
  {
  }

  lemma DocumentRequestKeepsOwned(w: World, s: Step)
    requires SoundWorld(w) && Owned(w) && Serve(w, s).Ok?
    requires s.Upload? || s.Refile? || s.SetDeleted? || s.Purge?
    ensures Owned(Next(w, s))
  {
  }

  lemma StepKeepsOwned(w: World, s: Step)
    requires SoundWorld(w) && Owned(w)
    ensures Owned(Next(w, s))
  {
    if Serve(w, s).Ok? {
      match s
      case Archive(p, year) => ArchiveKeepsOwned(w, p, year);
      case Unarchive(p) => UnarchiveKeepsOwned(w, p);
      case NewProject(p, title) => StandardFoldersKeepRows(w.folders, w.nextFolder, p, STANDARD_ROOTS);
      case Delete(p) => DeleteKeepsOwned(w, p);
      case Create(_, _, _, _, _, _) => FolderRequestKeepsOwned(w, s);
      case Update(_, _, _, _, _) => FolderRequestKeepsOwned(w, s);
      case Move(_, _, _, _) => FolderRequestKeepsOwned(w, s);
      case Disable(_, _) => FolderRequestKeepsOwned(w, s);
      case _ => DocumentRequestKeepsOwned(w, s);
    }
  }

  /** In every reachable world documents lie in folders of their own project, which is what the repair
    * relies on. */
  lemma {:induction false} RunKeepsOwned(w: World, steps: seq<Step>)
    requires SoundWorld(w) && Owned(w)
    ensures Owned(Run(w, steps)) && DocumentsFit(Run(w, steps))
    decreases |steps|
  {
    if steps != [] {
      StepKeepsSound(w, steps[0]);
      StepKeepsOwned(w, steps[0]);
      RunKeepsOwned(Next(w, steps[0]), steps[1..]);
    }
  }
}
