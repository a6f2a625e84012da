/** A condition on the rows before a repair that is enough: no public folder carries the code of a
  * project's archive container. */
module RepairClean {
  import opened Prelude
  import opened Forest
  import opened Folders
  import opened FolderGraph
  import opened Repair
  import opened RepairGraph
  import opened RepairHomes
  import opened RepairProof

  ghost predicate NoContainerCode(row: Folder) {
    forall p :: row.code != ContainerCode(p)
  }

  ghost predicate PublicCodesClean(t: Tree) {
    forall x <- t :: t[x].project == None ==> NoContainerCode(t[x])
  }

  /** Rows of projects keep code and sort order, and no public row comes to carry a container's code. */
  ghost predicate CodesStay(t: Tree, u: Tree) {
    && Grown(t, u)
    && (forall x <- t :: t[x].project.Some? ==> u[x].code == t[x].code && u[x].sortOrder == t[x].sortOrder)
    && (PublicCodesClean(t) ==> PublicCodesClean(u))
  }

  lemma CodesStayTransitive(t: Tree, u: Tree, v: Tree)
    requires CodesStay(t, u) && CodesStay(u, v)
    ensures CodesStay(t, v)
  {
  }

  lemma ArchiveCodesAreClean(year: nat)
    ensures forall p :: ARCHIVE_ROOT.code != ContainerCode(p) && YearCode(year) != ContainerCode(p)
  {
    forall p ensures ARCHIVE_ROOT.code != ContainerCode(p) && YearCode(year) != ContainerCode(p) {
      assert ContainerCode(p)[1] == 'R' && ARCHIVE_ROOT.code[1] == 'U' && YearCode(year)[1] == 'U';
    }
  }

  lemma RootKeepsCodes(t: Tree, next: FolderId)
    requires SoundTree(t, next)
    ensures CodesStay(t, GetArchiveRoot(t, next).folders)
  {
    ArchiveCodesAreClean(0);
    if ArchiveRoots(t) != {} {
      assert Least(ArchiveRoots(t)) in ArchiveRoots(t);
    }
  }

  lemma PlacedYearKeepsCodes(t: Tree, next: FolderId, root: FolderId, year: nat)
    requires SoundTree(t, next) && PlaceYearFolder(t, next, root, year).Ok?
    ensures CodesStay(t, PlaceYearFolder(t, next, root, year).value.folders)
  {
    ArchiveCodesAreClean(year);
    if YearFolders(t, root, year) != {} {
      assert Least(YearFolders(t, root, year)) in YearFolders(t, root, year);
    }
  }

  lemma YearKeepsCodes(t: Tree, next: FolderId, year: nat)
    requires SoundTree(t, next) && GetYearFolder(t, next, year).Ok?
    ensures CodesStay(t, GetYearFolder(t, next, year).value.folders)
  {
    ArchiveRootIsSound(t, next);
    RootKeepsCodes(t, next);
    var r := GetArchiveRoot(t, next);
    PlacedYearKeepsCodes(r.folders, r.next, r.id, year);
    CodesStayTransitive(t, r.folders, GetYearFolder(t, next, year).value.folders);
  }

  /** A row of p is added, or changed in other columns. */
  lemma OwnRowKeepsCodes(t: Tree, x: FolderId, row: Folder, p: ProjectId)
    requires row.project == Some(p)
    requires x in t ==> t[x].project == Some(p) && row.code == t[x].code && row.sortOrder == t[x].sortOrder
    ensures CodesStay(t, t[x := row])
  {
  }

  lemma ContainerKeepsCodes(t: Tree, next: FolderId, yearFolder: FolderId, p: ProjectId, title: string)
    requires SoundTree(t, next) && GetContainer(t, next, yearFolder, p, title).Ok?
    ensures CodesStay(t, GetContainer(t, next, yearFolder, p, title).value.folders)
  {
    var c := GetContainer(t, next, yearFolder, p, title).value;
    if Containers(t, p) != {} {
      assert Least(Containers(t, p)) in Containers(t, p);
    }
    OwnRowKeepsCodes(t, c.id, c.folders[c.id], p);
  }

  lemma StandardRootKeepsCodes(t: Tree, next: FolderId, p: ProjectId, c: FolderId, d: Definition)
    requires SoundTree(t, next)
    ensures CodesStay(t, PlaceRoot(t, next, p, c, d).folders)
  {
    var r := PlaceRoot(t, next, p, c, d);
    if WithCode(t, p, d.code) != {} {
      assert r.id in WithCode(t, p, d.code);
    }
    OwnRowKeepsCodes(t, r.id, r.folders[r.id], p);
  }

  lemma ChildKeepsCodes(t: Tree, next: FolderId, p: ProjectId, parent: FolderId, source: Folder)
    requires SoundTree(t, next)
    ensures CodesStay(t, PlaceChild(t, next, p, parent, source).folders)
  {
    var r := PlaceChild(t, next, p, parent, source);
    if Namesakes(t, p, parent, source.name) != {} {
      assert r.id in Namesakes(t, p, parent, source.name);
    }
    OwnRowKeepsCodes(t, r.id, r.folders[r.id], p);
  }

  lemma {:induction false} CopyKeepsCodes(t: Tree, next: FolderId, p: ProjectId, parent: FolderId, sources: seq<Folder>)
    requires SoundTree(t, next) && parent in t && t[parent].project == Some(p)
    ensures CodesStay(t, CopyChain(t, next, p, parent, sources).folders)
    decreases |sources|
  {
    if sources != [] {
      var r := PlaceChild(t, next, p, parent, sources[0]);
      ChildKeepsCodes(t, next, p, parent, sources[0]);
      ChildIsPlacedSoundly(t, next, p, parent, sources[0]);
      CopyKeepsCodes(r.folders, r.next, p, r.id, sources[1..]);
      CodesStayTransitive(t, r.folders, CopyChain(t, next, p, parent, sources).folders);
    }
  }

  lemma BelowRootKeepsCodes(t: Tree, next: FolderId, p: ProjectId, c: FolderId, d: Definition, rest: seq<Folder>)
    requires SoundTree(t, next) && IsContainer(t, p, c) && d.code != ContainerCode(p)
    ensures var r := PlaceRoot(t, next, p, c, d); CodesStay(t, CopyChain(r.folders, r.next, p, r.id, rest).folders)
  {
    var r := PlaceRoot(t, next, p, c, d);
    RootIsPlacedSoundly(t, next, p, c, d);
    StandardRootKeepsCodes(t, next, p, c, d);
    CopyKeepsCodes(r.folders, r.next, p, r.id, rest);
    CodesStayTransitive(t, r.folders, CopyChain(r.folders, r.next, p, r.id, rest).folders);
  }

  lemma TargetKeepsCodes(t: Tree, next: FolderId, p: ProjectId, c: FolderId, sources: seq<Folder>)
    requires SoundTree(t, next) && IsContainer(t, p, c)
    ensures CodesStay(t, PlaceTarget(t, next, p, c, sources).folders)
  {
    var i := RootIndex(sources);
    if i < |sources| {
      StandardRootIsNoContainer(sources[i], p);
      BelowRootKeepsCodes(t, next, p, c, DefinitionFor(sources[i], STANDARD_ROOTS).value, sources[i + 1..]);
    } else {
      CopyKeepsCodes(t, next, p, c, sources);
    }
  }

  lemma DocumentKeepsCodes(t: Tree, next: FolderId, p: ProjectId, project: Project, year: nat, sources: seq<Folder>)
    requires SoundTree(t, next) && PlaceDocument(t, next, p, project, year, sources).Ok?
    ensures CodesStay(t, PlaceDocument(t, next, p, project, year, sources).value.folders)
  {
    var y := GetYearFolder(t, next, year).value;
    YearIsPlacedSoundly(t, next, year);
    YearKeepsCodes(t, next, year);
    var c := GetContainer(y.folders, y.next, y.id, p, project.title).value;
    ContainerIsPlacedSoundly(y.folders, y.next, y.id, p, project.title);
    ContainerKeepsCodes(y.folders, y.next, y.id, p, project.title);
    TargetKeepsCodes(c.folders, c.next, p, c.id, sources);
    CodesStayTransitive(t, y.folders, c.folders);
    CodesStayTransitive(t, c.folders, PlaceTarget(c.folders, c.next, p, c.id, sources).folders);
  }

  // ---------------------------------------------------------------- the folders that may be copied

  ghost predicate ViewOf(t0: Tree, t: Tree, view: Tree) {
    view.Keys == t.Keys && forall y <- t :: view[y] == t[y] || (y in t0 && view[y] == t0[y])
  }

  lemma SeenIsView(t0: Tree, t: Tree, f: FolderId)
    requires Closed(t0) && Grown(t0, t)
    ensures ViewOf(t0, t, Seen(t0, t, f))
  {
  }

  lemma ViewIsSound(t0: Tree, t: Tree, view: Tree)
    requires Closed(t0) && Shares(t0) && Closed(t) && Shares(t) && Grown(t0, t) && ViewOf(t0, t, view)
    ensures Closed(view) && Shares(view)
  {
  }

  lemma {:induction false} AboveIsOwnOrPublic(view: Tree, x: FolderId, n: nat, p: ProjectId)
    requires Closed(view) && Shares(view) && x in view && (view[x].project == Some(p) || view[x].project == None)
    requires Up(view, Some(x), n).Some?
    ensures var y := Up(view, Some(x), n).value; y in view && (view[y].project == Some(p) || view[y].project == None)
    decreases n
  {
    if n > 0 && view[x].parent.Some? {
      AboveIsOwnOrPublic(view, view[x].parent.value, n - 1, p);
    }
  }

  /** A remembered row of p, or a public one, that carries the container's code is the container. */
  lemma OnlyTheContainer(t0: Tree, t: Tree, after: Tree, view: Tree, y: FolderId, p: ProjectId, c: FolderId)
    requires CodesStay(t0, t) && PublicCodesClean(t0) && ViewOf(t0, t, view) && y in view
    requires view[y].project == Some(p) || view[y].project == None
    requires CodesStay(t, after) && c in after && Containers(after, p) == {c}
    ensures Harmless(view[y], p, after[c].sortOrder)
  {
    if view[y].code == ContainerCode(p) {
      assert view[y].project == None ==> NoContainerCode(view[y]);
      assert y in Containers(after, p);
    }
  }

  lemma SourcesAreHarmless(t0: Tree, t: Tree, after: Tree, f: FolderId, p: ProjectId, c: FolderId)
    requires Closed(t0) && Shares(t0) && Closed(t) && Shares(t) && CodesStay(t0, t) && PublicCodesClean(t0)
    requires f in t0 && (t0[f].project == Some(p) || t0[f].project == None)
    requires CodesStay(t, after) && c in after && Containers(after, p) == {c}
    ensures AllHarmless(Sources(t0, t, f), p, after[c].sortOrder)
  {
    var view := Seen(t0, t, f);
    SeenIsView(t0, t, f);
    ViewIsSound(t0, t, view);
    var chain := Chain(view, Some(f), {});
    ChainInside(view, Some(f), {});
    forall i | 0 <= i < |chain| ensures Harmless(view[chain[i]], p, after[c].sortOrder) {
      assert chain[i] in chain;
      var n: nat :| Up(view, Some(f), n) == Some(chain[i]);
      AboveIsOwnOrPublic(view, f, n, p);
      OnlyTheContainer(t0, t, after, view, chain[i], p, c);
    }
  }

  lemma {:induction false} CopiedIsSuffix(t: Tree, next: FolderId, p: ProjectId, parent: FolderId, sources: seq<Folder>, least: int)
    requires AllHarmless(sources, p, least)
    ensures AllHarmless(Copied(t, next, p, parent, sources), p, least)
    decreases |sources|
  {
    if sources != [] && Namesakes(t, p, parent, sources[0].name) != {} {
      var r := PlaceChild(t, next, p, parent, sources[0]);
      CopiedIsSuffix(r.folders, r.next, p, r.id, sources[1..], least);
    }
  }

  lemma CleanDisplacesNothing(w0: World, w: World, d: DocumentId)
    requires SoundWorld(w0) && DocumentsFit(w0) && SoundWorld(w) && CodesStay(w0.folders, w.folders)
    requires PublicCodesClean(w0.folders) && d in Due(w0)
    ensures !Displaces(w0, w, d)
  {
    var p, f := Owner(w0, d), w0.documents[d].folder;
    var t := w.folders;
    var sources := Sources(w0.folders, t, f);
    if w0.projects[p].year.Some? {
      var year := w0.projects[p].year.value;
      if PlaceDocument(t, w.nextFolder, p, w0.projects[p], year, sources).Ok? {
        var y := GetYearFolder(t, w.nextFolder, year).value;
        YearIsPlacedSoundly(t, w.nextFolder, year);
        YearKeepsCodes(t, w.nextFolder, year);
        var c := GetContainer(y.folders, y.next, y.id, p, w0.projects[p].title).value;
        ContainerKeepsCodes(y.folders, y.next, y.id, p, w0.projects[p].title);
        ContainerIsHome(y.folders, y.next, y.id, p, w0.projects[p].title);
        CodesStayTransitive(t, y.folders, c.folders);
        SourcesAreHarmless(w0.folders, t, c.folders, f, p, c.id);
        NothingHarmfulCopied(c.folders, c.next, p, c.id, sources, c.folders[c.id].sortOrder);
      }
    }
  }

  lemma NothingHarmfulCopied(t: Tree, next: FolderId, p: ProjectId, c: FolderId, sources: seq<Folder>, least: int)
    requires AllHarmless(sources, p, least)
    ensures AllHarmless(CopiedBelow(t, next, p, c, sources), p, least)
  {
    var i := RootIndex(sources);
    if i < |sources| {
      var r := PlaceRoot(t, next, p, c, DefinitionFor(sources[i], STANDARD_ROOTS).value);
      CopiedIsSuffix(r.folders, r.next, p, r.id, sources[i + 1..], least);
    } else {
      CopiedIsSuffix(t, next, p, c, sources, least);
    }
  }

  lemma StepKeepsCodes(w0: World, w: World, d: DocumentId)
    requires SoundWorld(w) && d in Due(w0) && RepairDocument(w0, w, d, false).Ok?
    ensures CodesStay(w.folders, RepairDocument(w0, w, d, false).value.world.folders)
  {
    var p := Owner(w0, d);
    if w0.projects[p].year.Some? && NeedsRepair(w0.folders, w.folders, w0.documents[d], p) {
      DocumentKeepsCodes(w.folders, w.nextFolder, p, w0.projects[p], w0.projects[p].year.value,
                         Sources(w0.folders, w.folders, w0.documents[d].folder));
    }
  }

  lemma {:induction false} CleanRun(w0: World, w: World, ids: seq<DocumentId>)
    requires Going(w0, w, ids) && (forall d <- ids :: d in Due(w0))
    requires CodesStay(w0.folders, w.folders) && PublicCodesClean(w0.folders)
    ensures KeepsHomes(w0, w, ids)
    decreases |ids|
  {
    if ids != [] {
      assert ids[0] in ids;
      CleanDisplacesNothing(w0, w, ids[0]);
      if RepairDocument(w0, w, ids[0], false).Ok? {
        var one := RepairDocument(w0, w, ids[0], false).value.world;
        GoingOn(w0, w, ids);
        StepKeepsCodes(w0, w, ids[0]);
        CodesStayTransitive(w0.folders, w.folders, one.folders);
        CleanRun(w0, one, ids[1..]);
      }
    }
  }

  /** Whoever checks before a repair that no public folder carries a container's code can rely on it: if it
    * completes, everything is settled, and a second run finds nothing. */
  lemma CleanRepairSettles(w: World, dryRun: bool)
    requires SoundWorld(w) && DocumentsFit(w) && PublicCodesClean(w.folders) && RepairAll(w, false).Ok?
    ensures var v := RepairAll(w, false).value.world;
            && SoundWorld(v) && Due(v) == Due(w) && (forall d <- Due(v) :: Settled(v, d))
            && RepairAll(v, dryRun) == Ok(Outcome(v, []))
  {
    GoingFromStart(w);
    CleanRun(w, w, InOrder(Due(w)));
    RepairSettlesIff(w);
    SecondRunIsEmptyIff(w, dryRun);
  }
}
