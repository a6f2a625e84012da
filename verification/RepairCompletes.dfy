/** When a repair completes: which rows make it raise, told from the rows it starts with and the folders it
  * copies. */
module RepairCompletes {
  import opened Prelude
  import opened Forest
  import opened Folders
  import opened FolderGraph
  import opened Repair
  import opened RepairGraph
  import opened RepairHomes
  import opened RepairProof
  import opened RepairClean

  // ---------------------------------------------------------------- one document

  predicate One(ids: set<FolderId>) {
    forall a, b :: a in ids && b in ids ==> a == b
  }

  lemma OneIsLeast(ids: set<FolderId>)
    requires ids != {}
    ensures One(ids) <==> ids == {Least(ids)}
  {
    var m := Least(ids);
    if One(ids) {
      assert forall x :: x in ids <==> x in {m};
    }
  }

  /** There are not two folders of that year below the archive root. */
  ghost predicate YearIsUnique(t: Tree, year: nat) {
    ArchiveRoots(t) != {} ==> One(YearFolders(t, Least(ArchiveRoots(t)), year))
  }

  lemma RootStays(t: Tree, next: FolderId)
    requires SoundTree(t, next)
    ensures var r := GetArchiveRoot(t, next);
            && ArchiveRoots(r.folders) == (if ArchiveRoots(t) == {} then {next} else ArchiveRoots(t))
            && r.id == Least(ArchiveRoots(r.folders))
            && forall year :: YearFolders(r.folders, r.id, year)
                              == if ArchiveRoots(t) == {} then {} else YearFolders(t, r.id, year)
  {
    var r := GetArchiveRoot(t, next);
    if ArchiveRoots(t) == {} {
      assert next in ArchiveRoots(r.folders);
      forall x | x in ArchiveRoots(r.folders) ensures x == next {
        assert x != next ==> x in ArchiveRoots(t);
      }
    } else {
      assert r.id in ArchiveRoots(t);
      assert forall x :: x in ArchiveRoots(r.folders) <==> x in ArchiveRoots(t);
    }
    forall year ensures YearFolders(r.folders, r.id, year)
                        == if ArchiveRoots(t) == {} then {} else YearFolders(t, r.id, year) {
      forall x ensures x in YearFolders(r.folders, r.id, year) <==>
                 ArchiveRoots(t) != {} && x in YearFolders(t, r.id, year) {
      }
    }
  }

  lemma YearOkIff(t: Tree, next: FolderId, year: nat)
    requires SoundTree(t, next)
    ensures GetYearFolder(t, next, year).Ok? <==> YearIsUnique(t, year)
  {
    RootStays(t, next);
    var r := GetArchiveRoot(t, next);
    var found := YearFolders(r.folders, r.id, year);
    if found != {} {
      OneIsLeast(found);
    }
  }

  lemma ContainerOkIff(t: Tree, next: FolderId, yearFolder: FolderId, p: ProjectId, title: string)
    ensures GetContainer(t, next, yearFolder, p, title).Ok? <==> One(Containers(t, p))
  {
    if Containers(t, p) != {} {
      OneIsLeast(Containers(t, p));
    }
  }

  lemma SameRowsSameContainers(t: Tree, u: Tree, p: ProjectId)
    requires SameRows(t, u, p)
    ensures Containers(u, p) == Containers(t, p)
  {
  }

  /** Placing a document raises exactly when its year has two folders or its project two containers. */
  lemma PlaceOkIff(t: Tree, next: FolderId, p: ProjectId, project: Project, year: nat, sources: seq<Folder>)
    requires SoundTree(t, next)
    ensures PlaceDocument(t, next, p, project, year, sources).Ok? <==> YearIsUnique(t, year) && One(Containers(t, p))
  {
    YearOkIff(t, next, year);
    if GetYearFolder(t, next, year).Ok? {
      var y := GetYearFolder(t, next, year).value;
      YearIsPublic(t, next, year);
      PublicOnlyFrames(t, y.folders, p);
      SameRowsSameContainers(t, y.folders, p);
      ContainerOkIff(y.folders, y.next, y.id, p, project.title);
    }
  }

  // ---------------------------------------------------------------- years stay as they are

  /** Public rows stay, and none is added. */
  ghost predicate PublicSame(t: Tree, u: Tree) {
    && (forall x <- t :: t[x].project == None ==> x in u && u[x] == t[x])
    && (forall x <- u :: u[x].project == None ==> x in t && t[x].project == None)
  }

  lemma SamePublicYears(t: Tree, u: Tree)
    requires PublicSame(t, u)
    ensures ArchiveRoots(u) == ArchiveRoots(t) && forall year :: YearIsUnique(u, year) <==> YearIsUnique(t, year)
  {
    assert ArchiveRoots(u) == ArchiveRoots(t);
    forall year ensures YearIsUnique(u, year) <==> YearIsUnique(t, year) {
      if ArchiveRoots(t) != {} {
        var root := Least(ArchiveRoots(t));
        assert YearFolders(u, root, year) == YearFolders(t, root, year);
      }
    }
  }

  lemma OwnRowIsNotPublic(t: Tree, x: FolderId, row: Folder, p: ProjectId)
    requires row.project == Some(p) && (x in t ==> t[x].project == Some(p))
    ensures PublicSame(t, t[x := row])
  {
  }

  lemma ContainerIsNotPublic(t: Tree, next: FolderId, yearFolder: FolderId, p: ProjectId, title: string)
    requires SoundTree(t, next) && GetContainer(t, next, yearFolder, p, title).Ok?
    ensures PublicSame(t, GetContainer(t, next, yearFolder, p, title).value.folders)
  {
    var c := GetContainer(t, next, yearFolder, p, title).value;
    if Containers(t, p) != {} {
      assert Least(Containers(t, p)) in Containers(t, p);
    }
    OwnRowIsNotPublic(t, c.id, c.folders[c.id], p);
  }

  lemma StandardRootIsNotPublic(t: Tree, next: FolderId, p: ProjectId, c: FolderId, d: Definition)
    requires SoundTree(t, next)
    ensures PublicSame(t, PlaceRoot(t, next, p, c, d).folders)
  {
    var r := PlaceRoot(t, next, p, c, d);
    if WithCode(t, p, d.code) != {} {
      assert r.id in WithCode(t, p, d.code);
    }
    OwnRowIsNotPublic(t, r.id, r.folders[r.id], p);
  }

  lemma ChildIsNotPublic(t: Tree, next: FolderId, p: ProjectId, parent: FolderId, source: Folder)
    requires SoundTree(t, next)
    ensures PublicSame(t, PlaceChild(t, next, p, parent, source).folders)
  {
    var r := PlaceChild(t, next, p, parent, source);
    if Namesakes(t, p, parent, source.name) != {} {
      assert r.id in Namesakes(t, p, parent, source.name);
    }
    OwnRowIsNotPublic(t, r.id, r.folders[r.id], p);
  }

  lemma PublicSameTransitive(t: Tree, u: Tree, v: Tree)
    requires PublicSame(t, u) && PublicSame(u, v)
    ensures PublicSame(t, v)
  {
  }

  lemma {:induction false} CopyIsNotPublic(t: Tree, next: FolderId, p: ProjectId, parent: FolderId, sources: seq<Folder>)
    requires SoundTree(t, next) && parent in t && t[parent].project == Some(p)
    ensures PublicSame(t, CopyChain(t, next, p, parent, sources).folders)
    decreases |sources|
  {
    if sources != [] {
      var r := PlaceChild(t, next, p, parent, sources[0]);
      ChildIsNotPublic(t, next, p, parent, sources[0]);
      ChildIsPlacedSoundly(t, next, p, parent, sources[0]);
      CopyIsNotPublic(r.folders, r.next, p, r.id, sources[1..]);
      PublicSameTransitive(t, r.folders, CopyChain(r.folders, r.next, p, r.id, sources[1..]).folders);
    }
  }

  lemma PlacedYearStays(t: Tree, next: FolderId, root: FolderId, year: nat, other: nat)
    requires SoundTree(t, next) && root in ArchiveRoots(t) && PlaceYearFolder(t, next, root, year).Ok?
    ensures var u := PlaceYearFolder(t, next, root, year).value.folders;
            && ArchiveRoots(u) == ArchiveRoots(t)
            && (One(YearFolders(u, root, other)) <==> One(YearFolders(t, root, other)))
  {
    var y := PlaceYearFolder(t, next, root, year).value;
    if YearFolders(t, root, year) != {} {
      assert y.id in YearFolders(t, root, year);
      assert forall x :: x in YearFolders(y.folders, root, other) <==> x in YearFolders(t, root, other);
    } else if YearName(other) == YearName(year) {
      forall x | x in YearFolders(y.folders, root, other) ensures x == y.id {
        assert x != y.id ==> x in YearFolders(t, root, year);
      }
    } else {
      assert forall x :: x in YearFolders(y.folders, root, other) <==> x in YearFolders(t, root, other);
    }
    assert forall x :: x in ArchiveRoots(y.folders) <==> x in ArchiveRoots(t);
  }

  lemma YearStaysUnique(t: Tree, next: FolderId, year: nat, other: nat)
    requires SoundTree(t, next) && GetYearFolder(t, next, year).Ok?
    ensures YearIsUnique(GetYearFolder(t, next, year).value.folders, other) <==> YearIsUnique(t, other)
  {
    RootStays(t, next);
    ArchiveRootIsSound(t, next);
    var r := GetArchiveRoot(t, next);
    PlacedYearStays(r.folders, r.next, r.id, year, other);
  }

  // ---------------------------------------------------------------- containers after a copy

  predicate Carries(rows: seq<Folder>, p: ProjectId) {
    exists i :: 0 <= i < |rows| && rows[i].code == ContainerCode(p)
  }

  lemma CopyOneIff(t: Tree, next: FolderId, p: ProjectId, parent: FolderId, sources: seq<Folder>, c: FolderId)
    requires SoundTree(t, next) && parent in t && t[parent].project == Some(p) && Containers(t, p) == {c}
    ensures One(Containers(CopyChain(t, next, p, parent, sources).folders, p))
            <==> !Carries(Copied(t, next, p, parent, sources), p)
  {
    var u := CopyChain(t, next, p, parent, sources).folders;
    var copied := Copied(t, next, p, parent, sources);
    CopyMakes(t, next, p, parent, sources);
    CopyKeepsRows(t, next, p, parent, sources);
    assert c in Containers(t, p) && c in Containers(u, p);
    if Carries(copied, p) {
      var i :| 0 <= i < |copied| && copied[i].code == ContainerCode(p);
      assert Makes(t, u, p, copied[i]);
      var x :| x in u && x !in t && MadeFrom(u[x], p, copied[i]);
      assert x in Containers(u, p) && x != c;
    } else {
      forall x | x in u && x !in t ensures u[x].code != ContainerCode(p) {
        assert FromOne(u[x], p, copied);
        var i :| 0 <= i < |copied| && MadeFrom(u[x], p, copied[i]);
      }
      forall x | x in Containers(u, p) ensures x == c {
        assert x in Containers(t, p);
      }
    }
  }

  lemma ContainerIsOne(t: Tree, next: FolderId, yearFolder: FolderId, p: ProjectId, title: string)
    requires SoundTree(t, next) && GetContainer(t, next, yearFolder, p, title).Ok?
    ensures var c := GetContainer(t, next, yearFolder, p, title).value; Containers(c.folders, p) == {c.id}
  {
    var c := GetContainer(t, next, yearFolder, p, title).value;
    if Containers(t, p) != {} {
      assert Containers(t, p) == {c.id} && c.id in Containers(t, p);
    }
    assert c.id in Containers(c.folders, p);
    forall x | x in Containers(c.folders, p) ensures x == c.id {
      assert x != c.id ==> x in Containers(t, p);
    }
  }

  lemma RootKeepsContainers(t: Tree, next: FolderId, p: ProjectId, c: FolderId, d: Definition)
    requires SoundTree(t, next) && d.code != ContainerCode(p)
    ensures Containers(PlaceRoot(t, next, p, c, d).folders, p) == Containers(t, p)
  {
    var r := PlaceRoot(t, next, p, c, d);
    if WithCode(t, p, d.code) != {} {
      assert r.id in WithCode(t, p, d.code);
    }
    assert forall x :: x in Containers(r.folders, p) <==> x in Containers(t, p);
  }

  lemma BelowRootOneIff(t: Tree, next: FolderId, p: ProjectId, c: FolderId, d: Definition, rest: seq<Folder>)
    requires SoundTree(t, next) && IsContainer(t, p, c) && Containers(t, p) == {c} && d.code != ContainerCode(p)
    ensures var r := PlaceRoot(t, next, p, c, d);
            var u := CopyChain(r.folders, r.next, p, r.id, rest).folders;
            (One(Containers(u, p)) <==> !Carries(Copied(r.folders, r.next, p, r.id, rest), p)) && PublicSame(t, u)
  {
    var r := PlaceRoot(t, next, p, c, d);
    RootIsPlacedSoundly(t, next, p, c, d);
    RootKeepsContainers(t, next, p, c, d);
    CopyOneIff(r.folders, r.next, p, r.id, rest, c);
    StandardRootIsNotPublic(t, next, p, c, d);
    CopyIsNotPublic(r.folders, r.next, p, r.id, rest);
    PublicSameTransitive(t, r.folders, CopyChain(r.folders, r.next, p, r.id, rest).folders);
  }

  lemma TargetOneIff(t: Tree, next: FolderId, p: ProjectId, c: FolderId, sources: seq<Folder>)
    requires SoundTree(t, next) && IsContainer(t, p, c) && Containers(t, p) == {c}
    ensures var u := PlaceTarget(t, next, p, c, sources).folders;
            (One(Containers(u, p)) <==> !Carries(CopiedBelow(t, next, p, c, sources), p)) && PublicSame(t, u)
  {
    var i := RootIndex(sources);
    if i < |sources| {
      StandardRootIsNoContainer(sources[i], p);
      BelowRootOneIff(t, next, p, c, DefinitionFor(sources[i], STANDARD_ROOTS).value, sources[i + 1..]);
    } else {
      CopyOneIff(t, next, p, c, sources, c);
      CopyIsNotPublic(t, next, p, c, sources);
    }
  }

  /** Placing the document copies a folder that carries the code of its project's container. */
  ghost predicate Crowds(t: Tree, next: FolderId, p: ProjectId, project: Project, year: nat, sources: seq<Folder>) {
    PlaceDocument(t, next, p, project, year, sources).Ok? &&
    var y := GetYearFolder(t, next, year).value;
    var c := GetContainer(y.folders, y.next, y.id, p, project.title).value;
    Carries(CopiedBelow(c.folders, c.next, p, c.id, sources), p)
  }

  /** What one placed document leaves to the next: years are as unique as before, other projects' containers
    * too, and its own project has one container unless such a folder was copied. */
  lemma PlacedLeaves(t: Tree, next: FolderId, p: ProjectId, project: Project, year: nat, sources: seq<Folder>)
    requires SoundTree(t, next) && PlaceDocument(t, next, p, project, year, sources).Ok?
    ensures var u := PlaceDocument(t, next, p, project, year, sources).value.folders;
            && (forall other :: YearIsUnique(u, other) <==> YearIsUnique(t, other))
            && (forall q :: q != p ==> Containers(u, q) == Containers(t, q))
            && (One(Containers(u, p)) <==> !Crowds(t, next, p, project, year, sources))
  {
    var y := GetYearFolder(t, next, year).value;
    YearIsPlacedSoundly(t, next, year);
    var c := GetContainer(y.folders, y.next, y.id, p, project.title).value;
    ContainerIsPlacedSoundly(y.folders, y.next, y.id, p, project.title);
    ContainerIsOne(y.folders, y.next, y.id, p, project.title);
    TargetOneIff(c.folders, c.next, p, c.id, sources);
    var u := PlaceTarget(c.folders, c.next, p, c.id, sources).folders;
    ContainerIsNotPublic(y.folders, y.next, y.id, p, project.title);
    PublicSameTransitive(y.folders, c.folders, u);
    SamePublicYears(y.folders, u);
    forall other ensures YearIsUnique(u, other) <==> YearIsUnique(t, other) {
      YearStaysUnique(t, next, year, other);
    }
    DocumentIsPlaced(t, next, p, project, year, sources);
    forall q | q != p ensures Containers(u, q) == Containers(t, q) {
      SameRowsSameContainers(t, u, q);
    }
  }

  // ---------------------------------------------------------------- whole runs

  ghost predicate Needs(w0: World, w: World, d: DocumentId)
    requires d in Due(w0)
  {
    w0.projects[Owner(w0, d)].year.Some? && NeedsRepair(w0.folders, w.folders, w0.documents[d], Owner(w0, d))
  }

  /** The rows a run starts with: one folder of the project's year, one container of the project. */
  ghost predicate RowsUnique(w: World, p: ProjectId)
    requires p in w.projects
  {
    && (w.projects[p].year.Some? ==> YearIsUnique(w.folders, w.projects[p].year.value))
    && One(Containers(w.folders, p))
  }

  ghost predicate CrowdsAt(w0: World, w: World, d: DocumentId)
    requires d in Due(w0)
  {
    var p := Owner(w0, d);
    Needs(w0, w, d) && Crowds(w.folders, w.nextFolder, p, w0.projects[p], w0.projects[p].year.value,
                              Sources(w0.folders, w.folders, w0.documents[d].folder))
  }

  ghost function After(w0: World, w: World, d: DocumentId): World
    requires d in Due(w0)
  {
    var r := RepairDocument(w0, w, d, false);
    if r.Ok? then r.value.world else w
  }

  /** Every document that has to be moved belongs to a project whose rows were unique at the start, and no
    * document of that project before it made a folder with the container's code; `full` are the projects
    * where that has happened. */
  ghost predicate Completes(w0: World, w: World, ids: seq<DocumentId>, full: set<ProjectId>)
    requires forall d <- ids :: d in Due(w0)
    decreases |ids|
  {
    ids == [] ||
    (var d := ids[0];
     assert d in ids;
     var p := Owner(w0, d);
     && (Needs(w0, w, d) ==> RowsUnique(w0, p) && p !in full)
     && Completes(w0, After(w0, w, d), ids[1..], if CrowdsAt(w0, w, d) then full + {p} else full))
  }

  ghost predicate Follows(t0: Tree, t: Tree, full: set<ProjectId>) {
    && (forall year :: YearIsUnique(t, year) <==> YearIsUnique(t0, year))
    && (forall p :: One(Containers(t, p)) <==> One(Containers(t0, p)) && p !in full)
  }

  ghost predicate Tracks(w0: World, w: World, full: set<ProjectId>) {
    Follows(w0.folders, w.folders, full)
  }

  lemma FollowsOn(t0: Tree, t: Tree, u: Tree, p: ProjectId, full: set<ProjectId>, crowds: bool)
    requires Follows(t0, t, full) && One(Containers(t, p))
    requires forall year :: YearIsUnique(u, year) <==> YearIsUnique(t, year)
    requires forall q :: q != p ==> Containers(u, q) == Containers(t, q)
    requires One(Containers(u, p)) <==> !crowds
    ensures Follows(t0, u, if crowds then full + {p} else full)
  {
    var more := if crowds then full + {p} else full;
    forall q ensures One(Containers(u, q)) <==> One(Containers(t0, q)) && q !in more {
      if q != p {
        assert Containers(u, q) == Containers(t, q);
      }
      assert One(Containers(t, q)) <==> One(Containers(t0, q)) && q !in full;
    }
    forall year ensures YearIsUnique(u, year) <==> YearIsUnique(t0, year) {
      assert YearIsUnique(u, year) <==> YearIsUnique(t, year);
    }
  }

  lemma DocumentOkIff(w0: World, w: World, d: DocumentId, full: set<ProjectId>)
    requires SoundWorld(w) && d in Due(w0) && Tracks(w0, w, full)
    ensures RepairDocument(w0, w, d, false).Ok? <==>
            (Needs(w0, w, d) ==> RowsUnique(w0, Owner(w0, d)) && Owner(w0, d) !in full)
  {
    var p := Owner(w0, d);
    if Needs(w0, w, d) {
      PlaceOkIff(w.folders, w.nextFolder, p, w0.projects[p], w0.projects[p].year.value,
                 Sources(w0.folders, w.folders, w0.documents[d].folder));
    }
  }

  lemma StepTracks(w0: World, w: World, d: DocumentId, full: set<ProjectId>)
    requires SoundWorld(w) && d in Due(w0) && Tracks(w0, w, full) && RepairDocument(w0, w, d, false).Ok?
    ensures Tracks(w0, After(w0, w, d), if CrowdsAt(w0, w, d) then full + {Owner(w0, d)} else full)
  {
    var p := Owner(w0, d);
    if Needs(w0, w, d) {
      MovedShape(w0, w, d);
      var year := w0.projects[p].year.value;
      var sources := Sources(w0.folders, w.folders, w0.documents[d].folder);
      PlaceOkIff(w.folders, w.nextFolder, p, w0.projects[p], year, sources);
      PlacedLeaves(w.folders, w.nextFolder, p, w0.projects[p], year, sources);
      FollowsOn(w0.folders, w.folders, After(w0, w, d).folders, p, full, CrowdsAt(w0, w, d));
    }
  }

  lemma {:induction false} RunCompletesIff(w0: World, w: World, ids: seq<DocumentId>, full: set<ProjectId>)
    requires Going(w0, w, ids) && (forall d <- ids :: d in Due(w0)) && Tracks(w0, w, full)
    ensures RepairFrom(w0, w, ids, false).Ok? <==> Completes(w0, w, ids, full)
    decreases |ids|
  {
    if ids != [] {
      var d := ids[0];
      assert d in ids;
      DocumentOkIff(w0, w, d, full);
      if RepairDocument(w0, w, d, false).Ok? {
        StepTracks(w0, w, d, full);
        GoingOn(w0, w, ids);
        RunCompletesIff(w0, After(w0, w, d), ids[1..], if CrowdsAt(w0, w, d) then full + {Owner(w0, d)} else full);
      }
    }
  }

  /** A repair completes if and only if every document it has to move belongs to a project that has one folder
    * for its year and one container at the start, and no document of that project repaired before copied a
    * folder with the container's code. */
  lemma RepairCompletesIff(w: World)
    requires SoundWorld(w) && DocumentsFit(w)
    ensures forall d <- InOrder(Due(w)) :: d in Due(w)
    ensures RepairAll(w, false).Ok? <==> Completes(w, w, InOrder(Due(w)), {})
  {
    GoingFromStart(w);
    RunCompletesIff(w, w, InOrder(Due(w)), {});
  }

  // ---------------------------------------------------------------- what can be seen beforehand

  /** As long as a project's rows are untouched, its documents have to be moved exactly when they had to at the
    * start. */
  lemma NeedsIsStable(w0: World, w: World, d: DocumentId)
    requires SoundWorld(w0) && SoundWorld(w) && Grown(w0.folders, w.folders) && d in Due(w0)
    requires SameRows(w0.folders, w.folders, Owner(w0, d)) && w0.documents[d].folder in w0.folders
    ensures Needs(w0, w, d) <==> Needs(w0, w0, d)
  {
    var p, f := Owner(w0, d), w0.documents[d].folder;
    var t0, t := w0.folders, w.folders;
    assert SameContainers(t0, t, p) by {
      assert forall x :: x in ActiveContainers(t0, p) <==> x in ActiveContainers(t, p);
    }
    ViewOfNow(t0, f);
    if ActiveContainers(t0, p) != {} {
      SameFirst(t0, t, p);
      ViewAgrees(t0, t, f, FirstOf(t0, ActiveContainers(t0, p)), p);
    }
  }

  lemma ViewAgrees(t0: Tree, t: Tree, f: FolderId, c: FolderId, p: ProjectId)
    requires Closed(t0) && Shares(t0) && Closed(t) && Shares(t) && Grown(t0, t) && SameRows(t0, t, p)
    requires f in t0 && c in t0 && t0[c].project == Some(p)
    ensures Below(Seen(t0, t, f), f, c) <==> Below(t0, f, c)
  {
    var view := Seen(t0, t, f);
    SeenIsView(t0, t, f);
    ViewIsSound(t0, t, view);
    assert SameRows(t0, view, p);
    if Below(view, f, c) {
      var n: nat :| Up(view, Some(f), n) == Some(c);
      BelowOwnInBoth(t0, view, f, c, n, p);
    }
    if Below(t0, f, c) {
      var n: nat :| Up(t0, Some(f), n) == Some(c);
      BelowIsKept(t0, view, f, c, n);
    }
  }

  ghost predicate ContainersActive(t: Tree) {
    forall p, x :: x in Containers(t, p) ==> x in t && t[x].active
  }

  lemma {:induction false} CopiedCarries(t: Tree, next: FolderId, p: ProjectId, parent: FolderId, sources: seq<Folder>)
    requires Carries(Copied(t, next, p, parent, sources), p)
    ensures Carries(sources, p)
    decreases |sources|
  {
    if sources != [] && Namesakes(t, p, parent, sources[0].name) != {} {
      var r := PlaceChild(t, next, p, parent, sources[0]);
      CopiedCarries(r.folders, r.next, p, r.id, sources[1..]);
      TailCarries(sources, 1, p);
    }
  }

  lemma TailCarries(sources: seq<Folder>, k: nat, p: ProjectId)
    requires k <= |sources| && Carries(sources[k..], p)
    ensures Carries(sources, p)
  {
    var i :| 0 <= i < |sources[k..]| && sources[k..][i].code == ContainerCode(p);
    assert sources[k + i].code == ContainerCode(p);
  }

  lemma CopiedBelowCarries(t: Tree, next: FolderId, p: ProjectId, c: FolderId, sources: seq<Folder>)
    requires Carries(CopiedBelow(t, next, p, c, sources), p)
    ensures Carries(sources, p)
  {
    var i := RootIndex(sources);
    if i < |sources| {
      var r := PlaceRoot(t, next, p, c, DefinitionFor(sources[i], STANDARD_ROOTS).value);
      CopiedCarries(r.folders, r.next, p, r.id, sources[i + 1..]);
      TailCarries(sources, i + 1, p);
    } else {
      CopiedCarries(t, next, p, c, sources);
    }
  }

  /** A folder of the chain that carries the container's code is the container, and then the document lies in
    * it already. */
  /** The folder of the chain that carries the code: the folder lies in it, and it is public or of the project. */
  lemma CarrierInChain(t0: Tree, t: Tree, f: FolderId, p: ProjectId) returns (y: FolderId)
    requires Closed(t0) && Shares(t0) && Closed(t) && Shares(t) && Grown(t0, t)
    requires f in t0 && (t0[f].project == Some(p) || t0[f].project == None)
    requires Carries(Sources(t0, t, f), p)
    ensures var view := Seen(t0, t, f);
            && y in view && Below(view, f, y) && view[y].code == ContainerCode(p)
            && (view[y].project == Some(p) || view[y].project == None)
  {
    var view := Seen(t0, t, f);
    SeenIsView(t0, t, f);
    ViewIsSound(t0, t, view);
    var chain := Chain(view, Some(f), {});
    ChainInside(view, Some(f), {});
    var i :| 0 <= i < |chain| && view[chain[i]].code == ContainerCode(p);
    y := chain[i];
    assert y in chain;
    var n: nat :| Up(view, Some(f), n) == Some(y);
    AboveIsOwnOrPublic(view, f, n, p);
  }

  lemma CarriersAreSettled(w0: World, w: World, d: DocumentId)
    requires SoundWorld(w0) && DocumentsFit(w0) && SoundWorld(w) && CodesStay(w0.folders, w.folders)
    requires PublicCodesClean(w0.folders) && ContainersActive(w.folders)
    requires d in Due(w0) && One(Containers(w.folders, Owner(w0, d)))
    requires Carries(Sources(w0.folders, w.folders, w0.documents[d].folder), Owner(w0, d))
    ensures !Needs(w0, w, d)
  {
    var p, f := Owner(w0, d), w0.documents[d].folder;
    var y := CarrierInChain(w0.folders, w.folders, f, p);
    SeenIsView(w0.folders, w.folders, f);
    OwnCodeIsContainer(w0.folders, w.folders, Seen(w0.folders, w.folders, f), y, p);
    OnlyActive(w.folders, p, y);
  }

  lemma OnlyActive(t: Tree, p: ProjectId, y: FolderId)
    requires One(Containers(t, p)) && ContainersActive(t) && y in Containers(t, p)
    ensures ActiveContainers(t, p) == {y} && FirstOf(t, ActiveContainers(t, p)) == y
  {
    assert forall x :: x in ActiveContainers(t, p) <==> x == y;
  }

  lemma OwnCodeIsContainer(t0: Tree, t: Tree, view: Tree, y: FolderId, p: ProjectId)
    requires CodesStay(t0, t) && PublicCodesClean(t0) && ViewOf(t0, t, view) && y in view
    requires view[y].project == Some(p) || view[y].project == None
    requires view[y].code == ContainerCode(p)
    ensures y in Containers(t, p)
  {
    assert view[y].project == None ==> NoContainerCode(view[y]);
  }

  lemma CleanCrowdsNothing(w0: World, w: World, d: DocumentId)
    requires SoundWorld(w0) && DocumentsFit(w0) && SoundWorld(w) && CodesStay(w0.folders, w.folders)
    requires PublicCodesClean(w0.folders) && ContainersActive(w.folders) && d in Due(w0)
    ensures !CrowdsAt(w0, w, d)
  {
    var p := Owner(w0, d);
    if CrowdsAt(w0, w, d) {
      var sources := Sources(w0.folders, w.folders, w0.documents[d].folder);
      var year := w0.projects[p].year.value;
      PlaceOkIff(w.folders, w.nextFolder, p, w0.projects[p], year, sources);
      var y := GetYearFolder(w.folders, w.nextFolder, year).value;
      var c := GetContainer(y.folders, y.next, y.id, p, w0.projects[p].title).value;
      CopiedBelowCarries(c.folders, c.next, p, c.id, sources);
      CarriersAreSettled(w0, w, d);
    }
  }

  /** The container a document was placed in is active, and the project's only one. */
  lemma PlacedIsActive(t: Tree, next: FolderId, p: ProjectId, project: Project, year: nat, sources: seq<Folder>)
    requires SoundTree(t, next) && PlaceDocument(t, next, p, project, year, sources).Ok? && ContainersActive(t)
    requires !Crowds(t, next, p, project, year, sources)
    ensures ContainersActive(PlaceDocument(t, next, p, project, year, sources).value.folders)
  {
    var u := PlaceDocument(t, next, p, project, year, sources).value.folders;
    PlacedLeaves(t, next, p, project, year, sources);
    DocumentIsPlaced(t, next, p, project, year, sources);
    var first := FirstOf(u, ActiveContainers(u, p));
    assert first in ActiveContainers(u, p);
    forall q, x | x in Containers(u, q) ensures x in u && u[x].active {
      if q == p {
        assert x == first;
      } else {
        assert SameRows(t, u, q) && x in Containers(t, q);
      }
    }
  }

  lemma StepKeepsActive(w0: World, w: World, d: DocumentId)
    requires SoundWorld(w) && d in Due(w0) && RepairDocument(w0, w, d, false).Ok? && !CrowdsAt(w0, w, d)
    requires ContainersActive(w.folders)
    ensures ContainersActive(After(w0, w, d).folders)
  {
    if Needs(w0, w, d) {
      var p := Owner(w0, d);
      PlacedIsActive(w.folders, w.nextFolder, p, w0.projects[p], w0.projects[p].year.value,
                     Sources(w0.folders, w.folders, w0.documents[d].folder));
    }
  }

  /** The projects of the documents still to come are untouched, or known to be unique. */
  ghost predicate Known(w0: World, w: World, ids: seq<DocumentId>)
    requires forall d <- ids :: d in Due(w0)
  {
    forall d <- ids :: SameRows(w0.folders, w.folders, Owner(w0, d)) || RowsUnique(w0, Owner(w0, d))
  }

  lemma StepKeepsKnown(w0: World, w: World, ids: seq<DocumentId>)
    requires Going(w0, w, ids) && ids != [] && (forall d <- ids :: d in Due(w0)) && Known(w0, w, ids)
    requires RepairDocument(w0, w, ids[0], false).Ok? && (Needs(w0, w, ids[0]) ==> RowsUnique(w0, Owner(w0, ids[0])))
    ensures (forall d <- ids[1..] :: d in Due(w0)) && Known(w0, After(w0, w, ids[0]), ids[1..])
  {
    var d := ids[0];
    assert d in ids;
    OneDocument(w0, w, d);
    var one := After(w0, w, d);
    forall e | e in ids[1..] ensures e in Due(w0)
        && (SameRows(w0.folders, one.folders, Owner(w0, e)) || RowsUnique(w0, Owner(w0, e))) {
      assert e in ids;
      if Owner(w0, e) != Owner(w0, d) && SameRows(w0.folders, w.folders, Owner(w0, e)) {
        SameRowsTransitive(w0.folders, w.folders, one.folders, Owner(w0, e));
      }
    }
  }

  ghost predicate CleanSoFar(w0: World, w: World) {
    && CodesStay(w0.folders, w.folders) && PublicCodesClean(w0.folders) && ContainersActive(w.folders)
    && Tracks(w0, w, {})
  }

  lemma {:induction false} CleanCompletesIff(w0: World, w: World, ids: seq<DocumentId>)
    requires Going(w0, w, ids) && (forall d <- ids :: d in Due(w0)) && Known(w0, w, ids) && CleanSoFar(w0, w)
    ensures Completes(w0, w, ids, {}) <==> forall d <- ids :: Needs(w0, w0, d) ==> RowsUnique(w0, Owner(w0, d))
    decreases |ids|
  {
    if ids != [] {
      var d, rest := ids[0], ids[1..];
      assert d in ids;
      assert forall e :: e in ids <==> e == d || e in rest;
      HeadAgrees(w0, w, d);
      CleanCrowdsNothing(w0, w, d);
      DocumentOkIff(w0, w, d, {});
      if Needs(w0, w0, d) ==> RowsUnique(w0, Owner(w0, d)) {
        GoingOn(w0, w, ids);
        StepKeepsKnown(w0, w, ids);
        StepTracks(w0, w, d, {});
        StepKeepsActive(w0, w, d);
        StepKeepsCodes(w0, w, d);
        CodesStayTransitive(w0.folders, w.folders, After(w0, w, d).folders);
        CleanCompletesIff(w0, After(w0, w, d), rest);
      }
    }
  }

  lemma HeadAgrees(w0: World, w: World, d: DocumentId)
    requires SoundWorld(w0) && SoundWorld(w) && Grown(w0.folders, w.folders) && d in Due(w0)
    requires SameRows(w0.folders, w.folders, Owner(w0, d)) || RowsUnique(w0, Owner(w0, d))
    requires w0.documents[d].folder in w0.folders
    ensures (Needs(w0, w, d) ==> RowsUnique(w0, Owner(w0, d))) <==> (Needs(w0, w0, d) ==> RowsUnique(w0, Owner(w0, d)))
  {
    if SameRows(w0.folders, w.folders, Owner(w0, d)) {
      NeedsIsStable(w0, w, d);
    }
  }

  /** When no public folder carries a container's code and no container is inactive, the rows at the start
    * decide: the repair completes if and only if every project with a document to move has one folder for its
    * year and one container. */
  lemma CleanRepairCompletesIff(w: World)
    requires SoundWorld(w) && DocumentsFit(w) && PublicCodesClean(w.folders) && ContainersActive(w.folders)
    ensures RepairAll(w, false).Ok? <==> forall d <- Due(w) :: Needs(w, w, d) ==> RowsUnique(w, Owner(w, d))
  {
    var ids := InOrder(Due(w));
    GoingFromStart(w);
    InOrderLists(Due(w));
    RepairCompletesIff(w);
    assert Known(w, w, ids);
    CleanCompletesIff(w, w, ids);
    assert forall d :: d in ids <==> d in Due(w);
  }
}
