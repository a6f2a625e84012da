/** Whatever a repair meets, it leaves a sound folder graph in which every document has its folder. */
module RepairGraph {
  import opened Prelude
  import opened Forest
  import opened Folders
  import opened FolderGraph
  import opened Repair

  /** Rows are only added, and keep their project. */
  ghost predicate Grown(t: Tree, u: Tree) {
    t.Keys <= u.Keys && forall x <- t :: u[x].project == t[x].project
  }

  /** A placed folder in a sound graph. */
  ghost predicate PlacedSoundly(t: Tree, r: Placed) {
    Grown(t, r.folders) && SoundTree(r.folders, r.next) && r.id in r.folders
  }

  lemma RootGrows(t: Tree, next: FolderId)
    requires SoundTree(t, next)
    ensures Grown(t, GetArchiveRoot(t, next).folders)
  {
  }

  lemma PlacedYearGrows(t: Tree, next: FolderId, root: FolderId, year: nat)
    requires SoundTree(t, next) && PlaceYearFolder(t, next, root, year).Ok?
    ensures Grown(t, PlaceYearFolder(t, next, root, year).value.folders)
  {
  }

  lemma YearIsPlacedSoundly(t: Tree, next: FolderId, year: nat)
    requires SoundTree(t, next) && GetYearFolder(t, next, year).Ok?
    ensures var y := GetYearFolder(t, next, year).value; PlacedSoundly(t, y) && y.folders[y.id].project == None
  {
    ArchiveRootIsSound(t, next);
    YearFolderIsSound(t, next, year);
    var r := GetArchiveRoot(t, next);
    RootGrows(t, next);
    PlacedYearGrows(r.folders, r.next, r.id, year);
  }

  /** Container and target hang where nothing of the project can be above them. */
  ghost predicate IsContainer(t: Tree, p: ProjectId, c: FolderId) {
    && c in t && t[c].project == Some(p) && t[c].code == ContainerCode(p)
    && t[c].parent.Some? && t[c].parent.value in t && t[t[c].parent.value].project == None
  }

  lemma ContainerIsPlacedSoundly(t: Tree, next: FolderId, yearFolder: FolderId, p: ProjectId, title: string)
    requires SoundTree(t, next) && yearFolder in t && t[yearFolder].project == None
    requires GetContainer(t, next, yearFolder, p, title).Ok?
    ensures var c := GetContainer(t, next, yearFolder, p, title).value;
            PlacedSoundly(t, c) && IsContainer(c.folders, p, c.id)
  {
    ContainerIsSound(t, next, yearFolder, p, title);
    if Containers(t, p) != {} {
      var c := Least(Containers(t, p));
      assert t[c].code == ContainerCode(p);
    }
  }

  lemma RootIsPlacedSoundly(t: Tree, next: FolderId, p: ProjectId, c: FolderId, d: Definition)
    requires SoundTree(t, next) && IsContainer(t, p, c) && d.code != ContainerCode(p)
    ensures var r := PlaceRoot(t, next, p, c, d); PlacedSoundly(t, r) && r.folders[r.id].project == Some(p)
  {
    var r := PlaceRoot(t, next, p, c, d);
    if WithCode(t, p, d.code) == {} {
      AddLeaf(t, next, r.folders[next]);
    } else {
      assert r.id in WithCode(t, p, d.code);
      ContainerIsClear(t, p, c, r.id);
      MoveRows(t, next, r.folders, {r.id}, Some(c));
    }
  }

  lemma ContainerIsClear(t: Tree, p: ProjectId, c: FolderId, x: FolderId)
    requires Closed(t) && Shares(t) && IsContainer(t, p, c) && x != c && x in t && t[x].project == Some(p)
    ensures ClearOf(t, Some(c), {x})
  {
    var y := t[c].parent.value;
    PublicIsClear(t, y, {x});
    forall n: nat | Up(t, Some(c), n).Some? ensures Up(t, Some(c), n).value != x {
      if n > 0 {
        assert Up(t, Some(c), n) == Up(t, Some(y), n - 1);
      }
    }
  }

  lemma ChildIsPlacedSoundly(t: Tree, next: FolderId, p: ProjectId, parent: FolderId, source: Folder)
    requires SoundTree(t, next) && parent in t && t[parent].project == Some(p)
    ensures var r := PlaceChild(t, next, p, parent, source); PlacedSoundly(t, r) && r.folders[r.id].project == Some(p)
  {
    var r := PlaceChild(t, next, p, parent, source);
    if Namesakes(t, p, parent, source.name) == {} {
      AddLeaf(t, next, r.folders[next]);
    } else {
      assert r.id in Namesakes(t, p, parent, source.name);
      PatchRow(t, next, r.id, r.folders[r.id]);
    }
  }

  lemma {:induction false} CopyIsPlacedSoundly(t: Tree, next: FolderId, p: ProjectId, parent: FolderId, sources: seq<Folder>)
    requires SoundTree(t, next) && parent in t && t[parent].project == Some(p)
    ensures PlacedSoundly(t, CopyChain(t, next, p, parent, sources))
    decreases |sources|
  {
    if sources != [] {
      var r := PlaceChild(t, next, p, parent, sources[0]);
      ChildIsPlacedSoundly(t, next, p, parent, sources[0]);
      CopyIsPlacedSoundly(r.folders, r.next, p, r.id, sources[1..]);
    }
  }

  lemma FirstCodesArePublic()
    ensures |STANDARD_ROOTS| == 10
    ensures forall i :: 0 <= i < 5 ==> |STANDARD_ROOTS[i].code| > 1 && STANDARD_ROOTS[i].code[1] == 'U'
  {
  }

  lemma OtherCodesArePublic()
    ensures |STANDARD_ROOTS| == 10
    ensures forall i :: 5 <= i < 10 ==> |STANDARD_ROOTS[i].code| > 1 && STANDARD_ROOTS[i].code[1] == 'U'
  {
  }

  lemma StandardRootIsNoContainer(row: Folder, p: ProjectId)
    requires DefinitionFor(row, STANDARD_ROOTS).Some?
    ensures DefinitionFor(row, STANDARD_ROOTS).value.code != ContainerCode(p)
  {
    FirstCodesArePublic();
    OtherCodesArePublic();
    DefinitionIsNoContainer(row, STANDARD_ROOTS, p);
  }

  lemma DefinitionIsNoContainer(row: Folder, definitions: seq<Definition>, p: ProjectId)
    requires forall d <- definitions :: |d.code| > 1 && d.code[1] == 'U'
    requires DefinitionFor(row, definitions).Some?
    ensures DefinitionFor(row, definitions).value.code != ContainerCode(p)
  {
    assert ContainerCode(p)[1] == 'R';
  }

  lemma BelowRootIsPlacedSoundly(t: Tree, next: FolderId, p: ProjectId, c: FolderId, d: Definition, rest: seq<Folder>)
    requires SoundTree(t, next) && IsContainer(t, p, c) && d.code != ContainerCode(p)
    ensures var r := PlaceRoot(t, next, p, c, d); PlacedSoundly(t, CopyChain(r.folders, r.next, p, r.id, rest))
  {
    var r := PlaceRoot(t, next, p, c, d);
    RootIsPlacedSoundly(t, next, p, c, d);
    CopyIsPlacedSoundly(r.folders, r.next, p, r.id, rest);
  }

  lemma TargetIsPlacedSoundly(t: Tree, next: FolderId, p: ProjectId, c: FolderId, sources: seq<Folder>)
    requires SoundTree(t, next) && IsContainer(t, p, c)
    ensures PlacedSoundly(t, PlaceTarget(t, next, p, c, sources))
  {
    var i := RootIndex(sources);
    if i < |sources| {
      StandardRootIsNoContainer(sources[i], p);
      BelowRootIsPlacedSoundly(t, next, p, c, DefinitionFor(sources[i], STANDARD_ROOTS).value, sources[i + 1..]);
    } else {
      CopyIsPlacedSoundly(t, next, p, c, sources);
    }
  }

  lemma DocumentIsPlacedSoundly(t: Tree, next: FolderId, p: ProjectId, project: Project, year: nat, sources: seq<Folder>)
    requires SoundTree(t, next) && PlaceDocument(t, next, p, project, year, sources).Ok?
    ensures PlacedSoundly(t, PlaceDocument(t, next, p, project, year, sources).value)
  {
    var y := GetYearFolder(t, next, year).value;
    YearIsPlacedSoundly(t, next, year);
    var c := GetContainer(y.folders, y.next, y.id, p, project.title).value;
    ContainerIsPlacedSoundly(y.folders, y.next, y.id, p, project.title);
    TargetIsPlacedSoundly(c.folders, c.next, p, c.id, sources);
  }

  // ---------------------------------------------------------------- whole runs

  /** Documents of archived projects lie in public folders or in folders of their project. */
  ghost predicate DocumentsFit(w: World) {
    forall d <- Due(w) :: w.documents[d].folder in w.folders &&
      var owner := w.folders[w.documents[d].folder].project; owner == None || owner == w.documents[d].project
  }

  /** From w to v a repair has placed folders and moved documents, and changed nothing else. */
  ghost predicate Moves(w: World, v: World) {
    && Grown(w.folders, v.folders) && SoundTree(v.folders, v.nextFolder)
    && v.projects == w.projects && v.documents.Keys == w.documents.Keys && v.nextDocument == w.nextDocument
    && (forall d <- w.documents :: v.documents[d].folder in v.folders
          && v.documents[d] == w.documents[d].(folder := v.documents[d].folder))
  }

  lemma MovingMoves(w: World, d: DocumentId, r: Placed)
    requires PlacedSoundly(w.folders, r) && d in w.documents
    requires forall e <- w.documents :: w.documents[e].folder in w.folders
    ensures Moves(w, w.(folders := r.folders, nextFolder := r.next,
                        documents := w.documents[d := w.documents[d].(folder := r.id)]))
  {
    var v := w.(folders := r.folders, nextFolder := r.next,
                documents := w.documents[d := w.documents[d].(folder := r.id)]);
    assert v.documents.Keys == w.documents.Keys;
  }

  lemma DocumentMoves(w0: World, w: World, d: DocumentId, dryRun: bool)
    requires SoundWorld(w) && d in Due(w0) && d in w.documents && w.documents[d] == w0.documents[d]
    requires RepairDocument(w0, w, d, dryRun).Ok?
    ensures var v := RepairDocument(w0, w, d, dryRun).value.world;
            Moves(w, v) && forall e <- w.documents :: e != d ==> v.documents[e] == w.documents[e]
  {
    var document := w0.documents[d];
    var p := document.project.value;
    var project := w0.projects[p];
    if project.year != None && NeedsRepair(w0.folders, w.folders, document, p) && !dryRun {
      var sources := Sources(w0.folders, w.folders, document.folder);
      DocumentIsPlacedSoundly(w.folders, w.nextFolder, p, project, project.year.value, sources);
      MovingMoves(w, d, PlaceDocument(w.folders, w.nextFolder, p, project, project.year.value, sources).value);
    }
  }

  predicate Unrepeated(ids: seq<DocumentId>) {
    forall i, j :: 0 <= i < j < |ids| ==> ids[i] != ids[j]
  }

  /** Documents still to be looked at are as they were read. */
  predicate Waiting(w0: World, w: World, ids: seq<DocumentId>) {
    forall d <- ids :: d in Due(w0) && d in w.documents && w.documents[d] == w0.documents[d]
  }

  lemma TailWaits(w0: World, w: World, one: World, ids: seq<DocumentId>)
    requires ids != [] && Unrepeated(ids) && Waiting(w0, w, ids) && w.documents.Keys == one.documents.Keys
    requires forall e <- w.documents :: e != ids[0] ==> one.documents[e] == w.documents[e]
    ensures Unrepeated(ids[1..]) && Waiting(w0, one, ids[1..]) && ids[0] !in ids[1..]
  {
    var rest := ids[1..];
    assert forall i :: 0 <= i < |rest| ==> rest[i] == ids[i + 1];
    forall e | e in rest ensures e in Due(w0) && e in one.documents && one.documents[e] == w0.documents[e] && e != ids[0] {
      assert e in ids;
      var i :| 0 <= i < |rest| && rest[i] == e;
      assert ids[i + 1] == e;
    }
  }

  lemma MovesKeepsSound(w: World, v: World)
    requires SoundWorld(w) && Moves(w, v)
    ensures SoundWorld(v)
  {
  }

  lemma {:induction false} RunMoves(w0: World, w: World, ids: seq<DocumentId>, dryRun: bool)
    requires SoundWorld(w) && Unrepeated(ids) && Waiting(w0, w, ids)
    requires RepairFrom(w0, w, ids, dryRun).Ok?
    ensures Moves(w, RepairFrom(w0, w, ids, dryRun).value.world)
    decreases |ids|
  {
    if ids != [] {
      var d := ids[0];
      assert d in ids;
      DocumentMoves(w0, w, d, dryRun);
      var one := RepairDocument(w0, w, d, dryRun).value.world;
      MovesKeepsSound(w, one);
      TailWaits(w0, w, one, ids);
      RunMoves(w0, one, ids[1..], dryRun);
    }
  }

  /** A repair that completes keeps the graph a forest, moves no row to another project, drops no row and
    * leaves every document in an existing folder. */
  lemma RepairKeepsSound(w: World, dryRun: bool)
    requires SoundWorld(w) && RepairAll(w, dryRun).Ok?
    ensures SoundWorld(RepairAll(w, dryRun).value.world) && Moves(w, RepairAll(w, dryRun).value.world)
  {
    InOrderLists(Due(w));
    RunMoves(w, w, InOrder(Due(w)), dryRun);
    MovesKeepsSound(w, RepairAll(w, dryRun).value.world);
  }

  // ---------------------------------------------------------------- the remembered rows

  /** What a document remembers is still a closed graph. */
  lemma ViewIsClosed(t0: Tree, t: Tree, f: FolderId)
    requires Closed(t0) && Closed(t) && Grown(t0, t)
    ensures Seen(t0, t, f).Keys == t.Keys && Closed(Seen(t0, t, f))
  {
    var view := Seen(t0, t, f);
    forall y | y in view ensures view[y] == t[y] || (y in t0 && view[y] == t0[y]) {
    }
  }
}
