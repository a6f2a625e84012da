/** One repaired document, row by row: what stays in its project's container, and exactly when a copied
  * folder takes the container's place. */
module RepairHomes {
  import opened Prelude
  import opened Forest
  import opened Folders
  import opened FolderGraph
  import opened Repair
  import opened RepairGraph

  // ---------------------------------------------------------------- chains up to a container

  /** Everything between a folder and a folder of project q above it belongs to q. */
  lemma {:induction false} BelowOwnIsOwn(t: Tree, x: FolderId, c: FolderId, n: nat)
    requires Closed(t) && Shares(t) && x in t && c in t && t[c].project.Some? && Up(t, Some(x), n) == Some(c)
    ensures t[x].project == t[c].project
    decreases n
  {
    if n > 0 {
      var p := t[x].parent;
      BelowOwnIsOwn(t, p.value, c, n - 1);
    }
  }

  /** Changing rows that do not belong to q, or hanging folders of q right below c, keeps folders
    * below c. */
  lemma {:induction false} BelowIsKept(t: Tree, u: Tree, x: FolderId, c: FolderId, n: nat)
    requires Closed(t) && Shares(t) && x in t && c in t && t[c].project.Some? && Up(t, Some(x), n) == Some(c)
    requires forall y <- t :: t[y].project == t[c].project && y != c ==>
               y in u && (u[y].parent == t[y].parent || u[y].parent == Some(c))
    ensures Below(u, x, c)
    decreases n
  {
    BelowSelf(u, x);
    if x != c {
      BelowOwnIsOwn(t, x, c, n);
      if u[x].parent == Some(c) {
        BelowParent(u, x, c);
      } else {
        var p := t[x].parent;
        BelowIsKept(t, u, p.value, c, n - 1);
        BelowParent(u, x, p.value);
        BelowTransitive(u, x, p.value, c);
      }
    }
  }

  lemma FirstIs(t: Tree, ids: set<FolderId>, c: FolderId)
    requires ids <= t.Keys && c in ids && forall x <- ids :: ComesFirst(t, c, x)
    ensures FirstOf(t, ids) == c
  {
  }

  /** The containers of project q are the same, in the same order. */
  ghost predicate SameContainers(t: Tree, u: Tree, q: ProjectId) {
    ActiveContainers(t, q) == ActiveContainers(u, q)
    && forall x <- ActiveContainers(t, q) :: x in t && x in u && u[x].sortOrder == t[x].sortOrder
  }

  lemma SameFirst(t: Tree, u: Tree, q: ProjectId)
    requires SameContainers(t, u, q) && ActiveContainers(t, q) != {}
    ensures FirstOf(u, ActiveContainers(u, q)) == FirstOf(t, ActiveContainers(t, q))
  {
    var c := FirstOf(t, ActiveContainers(t, q));
    FirstIs(u, ActiveContainers(u, q), c);
  }

  ghost predicate SameRows(t: Tree, u: Tree, q: ProjectId) {
    && (forall y <- t :: t[y].project == Some(q) ==> y in u && u[y] == t[y])
    && (forall y <- u :: u[y].project == Some(q) ==> y in t && t[y].project == Some(q))
  }

  /** A project none of whose rows has changed. */
  lemma OthersStayHomed(t: Tree, u: Tree, x: FolderId, q: ProjectId)
    requires Closed(t) && Shares(t) && x in t && Homed(t, x, q) && SameRows(t, u, q)
    ensures Homed(u, x, q)
  {
    assert forall y :: y in ActiveContainers(t, q) <==> y in ActiveContainers(u, q);
    assert SameContainers(t, u, q);
    SameFirst(t, u, q);
    var c := FirstOf(t, ActiveContainers(t, q));
    var n: nat :| Up(t, Some(x), n) == Some(c);
    BelowIsKept(t, u, x, c, n);
  }

  /** For project q the change is steady: what lay in the container still does, and a folder that hangs
    * elsewhere now lies in the container. */
  ghost predicate Steady(t: Tree, u: Tree, q: ProjectId) {
    && (forall x <- t :: t[x].project == Some(q) ==> x in u && (u[x].parent == t[x].parent || Homed(u, x, q)))
    && (forall x <- t :: Homed(t, x, q) ==> Homed(u, x, q))
  }

  lemma SteadySelf(t: Tree, q: ProjectId)
    ensures Steady(t, t, q)
  {
  }

  lemma SteadyTransitive(t: Tree, u: Tree, v: Tree, q: ProjectId)
    requires Steady(t, u, q) && Steady(u, v, q) && Grown(t, u)
    ensures Steady(t, v, q)
  {
    forall x | x in t && t[x].project == Some(q) ensures x in v && (v[x].parent == t[x].parent || Homed(v, x, q)) {
      if u[x].parent != t[x].parent {
        assert Homed(u, x, q);
      }
    }
  }

  lemma UntouchedIsSteady(t: Tree, u: Tree, q: ProjectId)
    requires Closed(t) && Shares(t) && SameRows(t, u, q)
    ensures Steady(t, u, q)
  {
    forall x | x in t && Homed(t, x, q) ensures Homed(u, x, q) {
      OthersStayHomed(t, u, x, q);
    }
  }

  // ---------------------------------------------------------------- whose rows change

  /** Public parents stay, and only rows of project p change otherwise. */
  ghost predicate Frame(t: Tree, u: Tree, p: ProjectId) {
    && Grown(t, u)
    && (forall x <- t :: t[x].project == None ==> u[x].parent == t[x].parent)
    && (forall q :: q != p ==> SameRows(t, u, q))
  }

  lemma SameRowsTransitive(t: Tree, u: Tree, v: Tree, q: ProjectId)
    requires SameRows(t, u, q) && SameRows(u, v, q)
    ensures SameRows(t, v, q)
  {
  }

  lemma FrameTransitive(t: Tree, u: Tree, v: Tree, p: ProjectId)
    requires Frame(t, u, p) && Frame(u, v, p)
    ensures Frame(t, v, p)
  {
    forall q | q != p ensures SameRows(t, v, q) {
      SameRowsTransitive(t, u, v, q);
    }
  }

  /** A change of public rows, other than their parents. */
  ghost predicate PublicOnly(t: Tree, u: Tree) {
    && t.Keys <= u.Keys
    && (forall x <- t :: u[x].project == t[x].project && u[x].parent == t[x].parent)
    && (forall x <- t :: t[x].project.Some? ==> u[x] == t[x])
    && (forall x <- u :: x !in t ==> u[x].project == None)
  }

  lemma PublicOnlyTransitive(t: Tree, u: Tree, v: Tree)
    requires PublicOnly(t, u) && PublicOnly(u, v)
    ensures PublicOnly(t, v)
  {
  }

  lemma PublicOnlyFrames(t: Tree, u: Tree, p: ProjectId)
    requires PublicOnly(t, u)
    ensures Frame(t, u, p) && SameRows(t, u, p)
  {
    forall q ensures SameRows(t, u, q) {
    }
  }

  lemma RootIsPublic(t: Tree, next: FolderId)
    requires SoundTree(t, next)
    ensures PublicOnly(t, GetArchiveRoot(t, next).folders)
  {
    if ArchiveRoots(t) != {} {
      var r := Least(ArchiveRoots(t));
      assert t[r].project == None;
    }
  }

  lemma PlacedYearIsPublic(t: Tree, next: FolderId, root: FolderId, year: nat)
    requires SoundTree(t, next) && PlaceYearFolder(t, next, root, year).Ok?
    ensures PublicOnly(t, PlaceYearFolder(t, next, root, year).value.folders)
  {
    if YearFolders(t, root, year) != {} {
      var y := Least(YearFolders(t, root, year));
      assert t[y].project == None;
    }
  }

  lemma YearIsPublic(t: Tree, next: FolderId, year: nat)
    requires SoundTree(t, next) && GetYearFolder(t, next, year).Ok?
    ensures PublicOnly(t, GetYearFolder(t, next, year).value.folders)
  {
    ArchiveRootIsSound(t, next);
    RootIsPublic(t, next);
    var r := GetArchiveRoot(t, next);
    PlacedYearIsPublic(r.folders, r.next, r.id, year);
    PublicOnlyTransitive(t, r.folders, GetYearFolder(t, next, year).value.folders);
  }

  /** A change of one row of p, or a new one. */
  lemma OwnRowFrames(t: Tree, x: FolderId, row: Folder, p: ProjectId)
    requires row.project == Some(p) && (x in t ==> t[x].project == Some(p))
    ensures Frame(t, t[x := row], p)
  {
    var u := t[x := row];
    forall q | q != p ensures SameRows(t, u, q) {
    }
  }

  lemma ContainerFrames(t: Tree, next: FolderId, yearFolder: FolderId, p: ProjectId, title: string)
    requires SoundTree(t, next) && GetContainer(t, next, yearFolder, p, title).Ok?
    ensures Frame(t, GetContainer(t, next, yearFolder, p, title).value.folders, p)
  {
    var c := GetContainer(t, next, yearFolder, p, title).value;
    if Containers(t, p) != {} {
      assert Least(Containers(t, p)) in Containers(t, p);
    }
    OwnRowFrames(t, c.id, c.folders[c.id], p);
  }

  lemma RootFrames(t: Tree, next: FolderId, p: ProjectId, c: FolderId, d: Definition)
    requires SoundTree(t, next)
    ensures Frame(t, PlaceRoot(t, next, p, c, d).folders, p)
  {
    var r := PlaceRoot(t, next, p, c, d);
    if WithCode(t, p, d.code) != {} {
      assert r.id in WithCode(t, p, d.code);
    }
    OwnRowFrames(t, r.id, r.folders[r.id], p);
  }

  lemma ChildFrames(t: Tree, next: FolderId, p: ProjectId, parent: FolderId, source: Folder)
    requires SoundTree(t, next)
    ensures Frame(t, PlaceChild(t, next, p, parent, source).folders, p)
  {
    var r := PlaceChild(t, next, p, parent, source);
    if Namesakes(t, p, parent, source.name) != {} {
      assert r.id in Namesakes(t, p, parent, source.name);
    }
    OwnRowFrames(t, r.id, r.folders[r.id], p);
  }

  lemma {:induction false} CopyFrames(t: Tree, next: FolderId, p: ProjectId, parent: FolderId, sources: seq<Folder>)
    requires SoundTree(t, next) && parent in t && t[parent].project == Some(p)
    ensures Frame(t, CopyChain(t, next, p, parent, sources).folders, p)
    decreases |sources|
  {
    if sources != [] {
      var r := PlaceChild(t, next, p, parent, sources[0]);
      ChildFrames(t, next, p, parent, sources[0]);
      ChildIsPlacedSoundly(t, next, p, parent, sources[0]);
      CopyFrames(r.folders, r.next, p, r.id, sources[1..]);
      FrameTransitive(t, r.folders, CopyChain(t, next, p, parent, sources).folders, p);
    }
  }

  // ---------------------------------------------------------------- the container

  /** c is where project p's archived documents belong. */
  ghost predicate Home(t: Tree, p: ProjectId, c: FolderId) {
    && c in t && t[c].project == Some(p) && t[c].code == ContainerCode(p) && t[c].active
    && t[c].parent.Some? && t[c].parent.value in t && t[t[c].parent.value].project == None
    && forall x <- Containers(t, p) :: x in t && ComesFirst(t, c, x)
  }

  lemma HomeIsFirst(t: Tree, p: ProjectId, c: FolderId)
    requires Home(t, p, c)
    ensures ActiveContainers(t, p) != {} && FirstOf(t, ActiveContainers(t, p)) == c
  {
    assert c in ActiveContainers(t, p);
    FirstIs(t, ActiveContainers(t, p), c);
  }

  /** A change of rows of p that hangs them nowhere but below the home of p. */
  lemma OwnStepIsSteady(t: Tree, u: Tree, p: ProjectId, c: FolderId)
    requires Closed(t) && Shares(t) && t.Keys <= u.Keys
    requires forall x <- t :: x != c ==> u[x].parent == t[x].parent || (t[x].project == Some(p) && u[x].parent == Some(c))
    requires Home(u, p, c) && (forall x :: x in t && Homed(t, x, p) ==> c in t && FirstOf(t, ActiveContainers(t, p)) == c)
    ensures Steady(t, u, p)
  {
    HomeIsFirst(u, p, c);
    forall x | x in t && Homed(t, x, p) ensures Homed(u, x, p) {
      assert FirstOf(t, ActiveContainers(t, p)) == c && c in ActiveContainers(t, p);
      var n: nat :| Up(t, Some(x), n) == Some(c);
      BelowIsKept(t, u, x, c, n);
    }
    forall x | x in t && t[x].project == Some(p) && u[x].parent != t[x].parent ensures Homed(u, x, p) {
      BelowSelf(u, c);
      if x != c {
        BelowParent(u, x, c);
      }
    }
  }

  lemma NewContainerIsHome(t: Tree, next: FolderId, p: ProjectId, row: Folder)
    requires SoundTree(t, next) && Containers(t, p) == {}
    requires row.project == Some(p) && row.code == ContainerCode(p) && row.active
    requires row.parent.Some? && row.parent.value in t && t[row.parent.value].project == None
    ensures var u := t[next := row]; Steady(t, u, p) && Home(u, p, next) && Containers(u, p) == {next}
  {
    var u := t[next := row];
    forall x ensures x in Containers(u, p) <==> x == next {
      assert x in Containers(u, p) && x != next ==> x in Containers(t, p);
    }
    assert ActiveContainers(t, p) == {};
    OwnStepIsSteady(t, u, p, next);
  }

  lemma FoundContainerIsHome(t: Tree, p: ProjectId, c: FolderId, row: Folder)
    requires Closed(t) && Shares(t) && Containers(t, p) == {c} && c in t
    requires row.project == Some(p) && row.code == ContainerCode(p) && row.active && row.sortOrder == t[c].sortOrder
    requires row.parent.Some? && row.parent.value in t && t[row.parent.value].project == None
    ensures var u := t[c := row]; Steady(t, u, p) && Home(u, p, c) && Containers(u, p) == {c}
  {
    var u := t[c := row];
    assert c in Containers(t, p);
    forall x ensures x in Containers(u, p) <==> x == c {
      assert x in Containers(u, p) && x != c ==> x in Containers(t, p);
    }
    assert ActiveContainers(t, p) <= {c};
    OwnStepIsSteady(t, u, p, c);
  }

  lemma ContainerIsHome(t: Tree, next: FolderId, yearFolder: FolderId, p: ProjectId, title: string)
    requires SoundTree(t, next) && yearFolder in t && t[yearFolder].project == None
    requires GetContainer(t, next, yearFolder, p, title).Ok?
    ensures var c := GetContainer(t, next, yearFolder, p, title).value;
            Steady(t, c.folders, p) && Home(c.folders, p, c.id) && Containers(c.folders, p) == {c.id}
  {
    if Containers(t, p) == {} {
      NewContainerIsHome(t, next, p, Folder(Some(p), Some(yearFolder), title, ContainerCode(p), p, true, false));
    } else {
      var c := Least(Containers(t, p));
      FoundContainerIsHome(t, p, c, t[c].(parent := Some(yearFolder), name := title, active := true));
    }
  }

  // ---------------------------------------------------------------- the target folder

  lemma HomeIsClear(t: Tree, next: FolderId, p: ProjectId, c: FolderId, x: FolderId)
    requires SoundTree(t, next) && Home(t, p, c) && x != c && x in t && t[x].project == Some(p)
    ensures ClearOf(t, Some(c), {x})
  {
    ContainerIsClear(t, p, c, x);
  }

  /** A placed folder: the graph is sound, the home is where it was, and the folder is below it. */
  ghost predicate PlacedBelow(t: Tree, r: Placed, p: ProjectId, c: FolderId) {
    && Grown(t, r.folders) && Steady(t, r.folders, p) && SoundTree(r.folders, r.next) && Home(r.folders, p, c)
    && r.id in r.folders && r.folders[r.id].project == Some(p) && Below(r.folders, r.id, c)
    && c in t && r.folders[c].sortOrder == t[c].sortOrder
  }

  lemma PlacedBelowTransitive(t: Tree, r: Placed, s: Placed, p: ProjectId, c: FolderId)
    requires PlacedBelow(t, r, p, c) && PlacedBelow(r.folders, s, p, c)
    ensures PlacedBelow(t, s, p, c)
  {
    SteadyTransitive(t, r.folders, s.folders, p);
  }

  /** A copied container code that does not sort before the home. Its id is larger in any case. */
  predicate Harmless(row: Folder, p: ProjectId, least: int) {
    row.code == ContainerCode(p) ==> row.sortOrder >= least
  }

  lemma AddedLeavesHome(t: Tree, next: FolderId, p: ProjectId, c: FolderId, row: Folder)
    requires next !in t && (forall x <- t :: x < next) && Home(t, p, c) && Harmless(row, p, t[c].sortOrder)
    requires row.project == Some(p)
    ensures Home(t[next := row], p, c)
  {
    var u := t[next := row];
    forall x | x in Containers(u, p) ensures ComesFirst(u, c, x) {
      assert x == next || x in Containers(t, p);
    }
  }

  lemma OwnAdd(t: Tree, next: FolderId, p: ProjectId, c: FolderId, parent: FolderId, row: Folder)
    requires SoundTree(t, next) && Home(t, p, c) && Harmless(row, p, t[c].sortOrder)
    requires row.project == Some(p) && row.parent == Some(parent)
    requires parent in t && t[parent].project == Some(p) && Below(t, parent, c)
    ensures PlacedBelow(t, Placed(t[next := row], next, next + 1), p, c)
  {
    var u := t[next := row];
    AddLeaf(t, next, row);
    HomeIsFirst(t, p, c);
    AddedLeavesHome(t, next, p, c, row);
    OwnStepIsSteady(t, u, p, c);
    HangsBelow(t, u, next, parent, c);
  }

  lemma HangsBelow(t: Tree, u: Tree, x: FolderId, parent: FolderId, c: FolderId)
    requires Closed(t) && Shares(t) && parent in t && Below(t, parent, c) && c in t && t[c].project.Some?
    requires forall y <- t :: t[y].project == t[c].project && y != c ==> y in u && u[y].parent == t[y].parent
    requires x in u && u[x].parent == Some(parent)
    ensures Below(u, x, c)
  {
    var n: nat :| Up(t, Some(parent), n) == Some(c);
    BelowIsKept(t, u, parent, c, n);
    BelowParent(u, x, parent);
    BelowTransitive(u, x, parent, c);
  }

  lemma OwnPatch(t: Tree, next: FolderId, p: ProjectId, c: FolderId, x: FolderId, row: Folder)
    requires SoundTree(t, next) && Home(t, p, c) && x != c && x in t && t[x].project == Some(p)
    requires row.project == t[x].project && row.code == t[x].code && row.sortOrder == t[x].sortOrder
    requires row.parent == t[x].parent || row.parent == Some(c)
    ensures Steady(t, t[x := row], p) && SoundTree(t[x := row], next) && Home(t[x := row], p, c)
  {
    var u := t[x := row];
    HomeIsFirst(t, p, c);
    HomeIsClear(t, next, p, c, x);
    if row.parent == Some(c) {
      MoveRows(t, next, u, {x}, Some(c));
    } else {
      PatchRow(t, next, x, row);
    }
    assert forall y <- Containers(u, p) :: y in Containers(t, p);
    assert Home(u, p, c);
    OwnStepIsSteady(t, u, p, c);
  }

  lemma RootIsPlaced(t: Tree, next: FolderId, p: ProjectId, c: FolderId, d: Definition)
    requires SoundTree(t, next) && Home(t, p, c) && d.code != ContainerCode(p)
    ensures PlacedBelow(t, PlaceRoot(t, next, p, c, d), p, c)
  {
    var r := PlaceRoot(t, next, p, c, d);
    if WithCode(t, p, d.code) == {} {
      BelowSelf(t, c);
      OwnAdd(t, next, p, c, c, Folder(Some(p), Some(c), d.name, d.code, d.sortOrder, true, false));
    } else {
      assert r.id in WithCode(t, p, d.code);
      OwnPatch(t, next, p, c, r.id, t[r.id].(parent := Some(c), name := d.name, active := true));
      BelowParent(r.folders, r.id, c);
    }
  }

  lemma ChildIsPlaced(t: Tree, next: FolderId, p: ProjectId, c: FolderId, parent: FolderId, source: Folder)
    requires SoundTree(t, next) && Home(t, p, c)
    requires parent in t && t[parent].project == Some(p) && Below(t, parent, c)
    requires Namesakes(t, p, parent, source.name) == {} ==> Harmless(source, p, t[c].sortOrder)
    ensures PlacedBelow(t, PlaceChild(t, next, p, parent, source), p, c)
  {
    var r := PlaceChild(t, next, p, parent, source);
    if Namesakes(t, p, parent, source.name) == {} {
      OwnAdd(t, next, p, c, parent, Folder(Some(p), Some(parent), source.name, source.code, source.sortOrder, true, false));
    } else {
      assert r.id in Namesakes(t, p, parent, source.name);
      OwnPatch(t, next, p, c, r.id, t[r.id].(active := true));
      HangsBelow(t, r.folders, r.id, parent, c);
    }
  }

  /** The folders actually copied: from the first one without a namesake on. */
  ghost function Copied(t: Tree, next: FolderId, p: ProjectId, parent: FolderId, sources: seq<Folder>): seq<Folder>
    decreases |sources|
  {
    if sources == [] || Namesakes(t, p, parent, sources[0].name) == {} then sources
    else
      var r := PlaceChild(t, next, p, parent, sources[0]);
      Copied(r.folders, r.next, p, r.id, sources[1..])
  }

  predicate AllHarmless(rows: seq<Folder>, p: ProjectId, least: int) {
    forall i :: 0 <= i < |rows| ==> Harmless(rows[i], p, least)
  }

  /** A new folder has no children yet, so below it everything is copied. */
  lemma NewHasNoNamesakes(t: Tree, next: FolderId, row: Folder, p: ProjectId, name: string)
    requires SoundTree(t, next) && row.parent != Some(next)
    ensures Namesakes(t[next := row], p, next, name) == {}
  {
  }

  lemma CopiedBelowNew(t: Tree, next: FolderId, p: ProjectId, parent: FolderId, sources: seq<Folder>)
    requires SoundTree(t, next) && parent in t && sources != [] && Namesakes(t, p, parent, sources[0].name) == {}
    ensures var r := PlaceChild(t, next, p, parent, sources[0]);
            Copied(r.folders, r.next, p, r.id, sources[1..]) == sources[1..]
  {
    if sources[1..] != [] {
      NewHasNoNamesakes(t, next, Folder(Some(p), Some(parent), sources[0].name, sources[0].code, sources[0].sortOrder, true, false),
                        p, sources[1..][0].name);
    }
  }

  lemma {:induction false} CopyIsPlaced(t: Tree, next: FolderId, p: ProjectId, c: FolderId, parent: FolderId,
                                        sources: seq<Folder>)
    requires SoundTree(t, next) && Home(t, p, c) && parent in t && t[parent].project == Some(p) && Below(t, parent, c)
    requires AllHarmless(Copied(t, next, p, parent, sources), p, t[c].sortOrder)
    ensures PlacedBelow(t, CopyChain(t, next, p, parent, sources), p, c)
    decreases |sources|
  {
    if sources == [] {
      SteadySelf(t, p);
    } else {
      var r := PlaceChild(t, next, p, parent, sources[0]);
      if Namesakes(t, p, parent, sources[0].name) == {} {
        CopiedBelowNew(t, next, p, parent, sources);
        assert forall i :: 0 <= i < |sources[1..]| ==> sources[1..][i] == sources[i + 1];
      }
      ChildIsPlaced(t, next, p, c, parent, sources[0]);
      CopyIsPlaced(r.folders, r.next, p, c, r.id, sources[1..]);
      PlacedBelowTransitive(t, r, CopyChain(r.folders, r.next, p, r.id, sources[1..]), p, c);
    }
  }

  // ---------------------------------------------------------------- when a copy takes the home's place

  /** Old rows are left alone, up to activating some. */
  ghost predicate KeepsRows(t: Tree, u: Tree) {
    forall x <- t :: x in u && u[x] == t[x].(active := u[x].active) && (t[x].active ==> u[x].active)
  }

  lemma ChildKeepsRows(t: Tree, next: FolderId, p: ProjectId, parent: FolderId, source: Folder)
    requires forall x <- t :: x < next
    ensures var r := PlaceChild(t, next, p, parent, source); KeepsRows(t, r.folders) && forall x <- r.folders :: x < r.next
  {
  }

  lemma {:induction false} CopyKeepsRows(t: Tree, next: FolderId, p: ProjectId, parent: FolderId, sources: seq<Folder>)
    requires forall x <- t :: x < next
    ensures KeepsRows(t, CopyChain(t, next, p, parent, sources).folders)
    decreases |sources|
  {
    if sources != [] {
      var r := PlaceChild(t, next, p, parent, sources[0]);
      ChildKeepsRows(t, next, p, parent, sources[0]);
      CopyKeepsRows(r.folders, r.next, p, r.id, sources[1..]);
    }
  }

  /** The row made from a source. */
  predicate MadeFrom(row: Folder, p: ProjectId, source: Folder) {
    row.project == Some(p) && row.active && row.code == source.code && row.sortOrder == source.sortOrder
  }

  ghost predicate Makes(t: Tree, u: Tree, p: ProjectId, source: Folder) {
    exists x :: x in u && x !in t && MadeFrom(u[x], p, source)
  }

  ghost predicate MakesAll(t: Tree, u: Tree, p: ProjectId, sources: seq<Folder>) {
    forall i :: 0 <= i < |sources| ==> Makes(t, u, p, sources[i])
  }

  predicate FromOne(row: Folder, p: ProjectId, sources: seq<Folder>) {
    exists i :: 0 <= i < |sources| && MadeFrom(row, p, sources[i])
  }

  ghost predicate MakesOnly(t: Tree, u: Tree, p: ProjectId, sources: seq<Folder>) {
    forall x <- u :: x !in t ==> FromOne(u[x], p, sources)
  }

  lemma OneMoreMakes(t: Tree, s: Tree, next: FolderId, u: Tree, p: ProjectId, sources: seq<Folder>)
    requires sources != [] && next !in t && s.Keys == t.Keys + {next} && next in u && MadeFrom(u[next], p, sources[0])
    requires MakesAll(s, u, p, sources[1..])
    ensures MakesAll(t, u, p, sources)
  {
    forall i | 0 <= i < |sources| ensures Makes(t, u, p, sources[i]) {
      if i > 0 {
        assert Makes(s, u, p, sources[1..][i - 1]);
        var x :| x in u && x !in s && MadeFrom(u[x], p, sources[i]);
        assert x !in t;
      }
    }
  }

  lemma OneMoreOnly(t: Tree, s: Tree, next: FolderId, u: Tree, p: ProjectId, sources: seq<Folder>)
    requires sources != [] && s.Keys == t.Keys + {next} && next in u && MadeFrom(u[next], p, sources[0])
    requires MakesOnly(s, u, p, sources[1..])
    ensures MakesOnly(t, u, p, sources)
  {
    var rest := sources[1..];
    forall x | x in u && x !in t ensures FromOne(u[x], p, sources) {
      if x != next {
        assert FromOne(u[x], p, rest);
        var i :| 0 <= i < |rest| && MadeFrom(u[x], p, rest[i]);
        assert sources[i + 1] == rest[i];
      }
    }
  }

  lemma OneMoreMade(t: Tree, next: FolderId, row: Folder, u: Tree, p: ProjectId, sources: seq<Folder>)
    requires sources != [] && next !in t && MadeFrom(row, p, sources[0]) && KeepsRows(t[next := row], u)
    requires MakesAll(t[next := row], u, p, sources[1..]) && MakesOnly(t[next := row], u, p, sources[1..])
    ensures MakesAll(t, u, p, sources) && MakesOnly(t, u, p, sources)
  {
    var s := t[next := row];
    assert next in s;
    assert next in u && MadeFrom(u[next], p, sources[0]);
    OneMoreMakes(t, s, next, u, p, sources);
    OneMoreOnly(t, s, next, u, p, sources);
  }

  /** The new rows are exactly the copies of the copied folders. */
  lemma {:induction false} CopyMakes(t: Tree, next: FolderId, p: ProjectId, parent: FolderId, sources: seq<Folder>)
    requires SoundTree(t, next) && parent in t && t[parent].project == Some(p)
    ensures var u := CopyChain(t, next, p, parent, sources).folders;
            var copied := Copied(t, next, p, parent, sources);
            MakesAll(t, u, p, copied) && MakesOnly(t, u, p, copied)
    decreases |sources|
  {
    if sources != [] {
      var r := PlaceChild(t, next, p, parent, sources[0]);
      ChildIsPlacedSoundly(t, next, p, parent, sources[0]);
      CopyMakes(r.folders, r.next, p, r.id, sources[1..]);
      if Namesakes(t, p, parent, sources[0].name) == {} {
        CopiedBelowNew(t, next, p, parent, sources);
        CopyKeepsRows(r.folders, r.next, p, r.id, sources[1..]);
        OneMoreMade(t, next, r.folders[next], CopyChain(t, next, p, parent, sources).folders, p, sources);
      } else {
        SameKeysMade(t, r.folders, CopyChain(t, next, p, parent, sources).folders, p, Copied(t, next, p, parent, sources));
      }
    }
  }

  lemma SameKeysMade(t: Tree, s: Tree, u: Tree, p: ProjectId, sources: seq<Folder>)
    requires s.Keys == t.Keys && MakesAll(s, u, p, sources) && MakesOnly(s, u, p, sources)
    ensures MakesAll(t, u, p, sources) && MakesOnly(t, u, p, sources)
  {
    forall i | 0 <= i < |sources| ensures Makes(t, u, p, sources[i]) {
      assert Makes(s, u, p, sources[i]);
      var x :| x in u && x !in s && MadeFrom(u[x], p, sources[i]);
      assert x in u && x !in t;
    }
    forall x | x in u && x !in t ensures FromOne(u[x], p, sources) {
      assert x !in s;
    }
  }

  /** The target lies below every new row, and below where copying began. */
  lemma {:induction false} CopyEndsBelow(t: Tree, next: FolderId, p: ProjectId, parent: FolderId, sources: seq<Folder>)
    requires SoundTree(t, next) && parent in t && t[parent].project == Some(p)
    ensures var r := CopyChain(t, next, p, parent, sources);
            Below(r.folders, r.id, parent) && forall x <- r.folders :: x !in t ==> Below(r.folders, r.id, x)
    decreases |sources|
  {
    BelowSelf(t, parent);
    if sources != [] {
      var s := PlaceChild(t, next, p, parent, sources[0]);
      ChildIsPlacedSoundly(t, next, p, parent, sources[0]);
      if Namesakes(t, p, parent, sources[0].name) != {} {
        assert s.id in Namesakes(t, p, parent, sources[0].name);
      }
      CopyEndsBelow(s.folders, s.next, p, s.id, sources[1..]);
      CopyKeepsRows(s.folders, s.next, p, s.id, sources[1..]);
      var r := CopyChain(t, next, p, parent, sources);
      BelowParent(r.folders, s.id, parent);
      BelowTransitive(r.folders, r.id, s.id, parent);
    }
  }

  /** From old rows one gets only to old rows. */
  lemma {:induction false} OldStaysOld(t: Tree, u: Tree, x: FolderId, n: nat)
    requires Closed(t) && x in t && forall y <- t :: y in u && u[y].parent == t[y].parent
    ensures Up(u, Some(x), n).Some? ==> Up(u, Some(x), n).value in t
    decreases n
  {
    if n > 0 && t[x].parent.Some? {
      OldStaysOld(t, u, t[x].parent.value, n - 1);
    }
  }

  /** The first active container of p is a row that none of the given folders lies below, and p has more
    * than one container. */
  ghost predicate Displaced(t: Tree, olds: set<FolderId>, p: ProjectId) {
    && ActiveContainers(t, p) != {}
    && (exists a, b :: a in Containers(t, p) && b in Containers(t, p) && a != b)
    && olds <= t.Keys
    && forall x <- olds :: !Below(t, x, FirstOf(t, ActiveContainers(t, p)))
  }

  /** A new row that sorts before the home makes some new row the first container. */
  lemma NewComesFirst(t: Tree, u: Tree, p: ProjectId, c: FolderId, y: FolderId)
    requires Home(t, p, c) && KeepsRows(t, u) && y in ActiveContainers(u, p) && y !in t && !ComesFirst(u, c, y)
    ensures ActiveContainers(u, p) != {} && c in Containers(u, p)
    ensures var h := FirstOf(u, ActiveContainers(u, p)); h !in t && h in u && u[h].project == Some(p) && h != c
  {
    var h := FirstOf(u, ActiveContainers(u, p));
    assert forall x <- Containers(t, p) :: x in u && ComesFirst(u, c, x);
    assert ComesFirst(u, h, y);
    assert h !in Containers(t, p);
  }

  lemma OldAvoidsNew(t: Tree, u: Tree, h: FolderId)
    requires Closed(t) && KeepsRows(t, u) && h !in t
    ensures forall x <- t :: !Below(u, x, h)
  {
    forall x | x in t ensures !Below(u, x, h) {
      if Below(u, x, h) {
        var n: nat :| Up(u, Some(x), n) == Some(h);
        OldStaysOld(t, u, x, n);
      }
    }
  }

  lemma HarmfulRow(t: Tree, u: Tree, p: ProjectId, c: FolderId, copied: seq<Folder>) returns (y: FolderId)
    requires Home(t, p, c) && KeepsRows(t, u) && MakesAll(t, u, p, copied)
    requires !AllHarmless(copied, p, t[c].sortOrder)
    ensures y in ActiveContainers(u, p) && y !in t && !ComesFirst(u, c, y)
  {
    var i :| 0 <= i < |copied| && !Harmless(copied[i], p, t[c].sortOrder);
    assert Makes(t, u, p, copied[i]);
    y :| y in u && y !in t && MadeFrom(u[y], p, copied[i]);
  }

  lemma CopyDisplaces(t: Tree, next: FolderId, p: ProjectId, c: FolderId, parent: FolderId, sources: seq<Folder>)
    requires SoundTree(t, next) && Home(t, p, c) && parent in t && t[parent].project == Some(p)
    requires !AllHarmless(Copied(t, next, p, parent, sources), p, t[c].sortOrder)
    ensures var r := CopyChain(t, next, p, parent, sources);
            Displaced(r.folders, t.Keys, p) && Homed(r.folders, r.id, p)
            && FirstOf(r.folders, ActiveContainers(r.folders, p)) != c
  {
    var r := CopyChain(t, next, p, parent, sources);
    CopyMakes(t, next, p, parent, sources);
    CopyKeepsRows(t, next, p, parent, sources);
    CopyEndsBelow(t, next, p, parent, sources);
    var y := HarmfulRow(t, r.folders, p, c, Copied(t, next, p, parent, sources));
    NewComesFirst(t, r.folders, p, c, y);
    OldAvoidsNew(t, r.folders, FirstOf(r.folders, ActiveContainers(r.folders, p)));
    assert c != y && y in Containers(r.folders, p);
  }

  /** At one step: the home of a project stays its first active container if and only if no folder that is
    * actually copied carries the container's code with a smaller sort order. */
  lemma HomeStaysFirstIff(t: Tree, next: FolderId, p: ProjectId, c: FolderId, parent: FolderId, sources: seq<Folder>)
    requires SoundTree(t, next) && Home(t, p, c) && parent in t && t[parent].project == Some(p) && Below(t, parent, c)
    ensures var u := CopyChain(t, next, p, parent, sources).folders;
            ActiveContainers(u, p) != {}
            && (FirstOf(u, ActiveContainers(u, p)) == c
                <==> AllHarmless(Copied(t, next, p, parent, sources), p, t[c].sortOrder))
  {
    if AllHarmless(Copied(t, next, p, parent, sources), p, t[c].sortOrder) {
      CopyIsPlaced(t, next, p, c, parent, sources);
      HomeIsFirst(CopyChain(t, next, p, parent, sources).folders, p, c);
    } else {
      CopyDisplaces(t, next, p, c, parent, sources);
    }
  }

  // ---------------------------------------------------------------- one document

  /** The folders copied for a document below its container c. */
  ghost function CopiedBelow(t: Tree, next: FolderId, p: ProjectId, c: FolderId, sources: seq<Folder>): seq<Folder> {
    var i := RootIndex(sources);
    if i < |sources| then
      var r := PlaceRoot(t, next, p, c, DefinitionFor(sources[i], STANDARD_ROOTS).value);
      Copied(r.folders, r.next, p, r.id, sources[i + 1..])
    else Copied(t, next, p, c, sources)
  }

  lemma BelowRootIsPlaced(t: Tree, next: FolderId, p: ProjectId, c: FolderId, d: Definition, rest: seq<Folder>)
    requires SoundTree(t, next) && Home(t, p, c) && d.code != ContainerCode(p)
    ensures var r := PlaceRoot(t, next, p, c, d);
            var s := CopyChain(r.folders, r.next, p, r.id, rest);
            && Frame(t, s.folders, p)
            && if AllHarmless(Copied(r.folders, r.next, p, r.id, rest), p, t[c].sortOrder) then PlacedBelow(t, s, p, c)
               else Displaced(s.folders, t.Keys, p) && Homed(s.folders, s.id, p)
  {
    var r := PlaceRoot(t, next, p, c, d);
    var s := CopyChain(r.folders, r.next, p, r.id, rest);
    RootFrames(t, next, p, c, d);
    RootIsPlaced(t, next, p, c, d);
    CopyFrames(r.folders, r.next, p, r.id, rest);
    FrameTransitive(t, r.folders, s.folders, p);
    if AllHarmless(Copied(r.folders, r.next, p, r.id, rest), p, t[c].sortOrder) {
      CopyIsPlaced(r.folders, r.next, p, c, r.id, rest);
      PlacedBelowTransitive(t, r, s, p, c);
    } else {
      CopyDisplaces(r.folders, r.next, p, c, r.id, rest);
    }
  }

  lemma TargetIsPlaced(t: Tree, next: FolderId, p: ProjectId, c: FolderId, sources: seq<Folder>)
    requires SoundTree(t, next) && Home(t, p, c)
    ensures var r := PlaceTarget(t, next, p, c, sources);
            && Frame(t, r.folders, p)
            && if AllHarmless(CopiedBelow(t, next, p, c, sources), p, t[c].sortOrder) then PlacedBelow(t, r, p, c)
               else Displaced(r.folders, t.Keys, p) && Homed(r.folders, r.id, p)
  {
    var i := RootIndex(sources);
    if i < |sources| {
      StandardRootIsNoContainer(sources[i], p);
      BelowRootIsPlaced(t, next, p, c, DefinitionFor(sources[i], STANDARD_ROOTS).value, sources[i + 1..]);
    } else {
      BelowSelf(t, c);
      CopyFrames(t, next, p, c, sources);
      if AllHarmless(CopiedBelow(t, next, p, c, sources), p, t[c].sortOrder) {
        CopyIsPlaced(t, next, p, c, c, sources);
      } else {
        CopyDisplaces(t, next, p, c, c, sources);
      }
    }
  }

  /** Some folder copied for the document carries the code of its project's container and sorts before
    * it. */
  ghost predicate Demotes(t: Tree, next: FolderId, p: ProjectId, project: Project, year: nat, sources: seq<Folder>) {
    PlaceDocument(t, next, p, project, year, sources).Ok? &&
    var y := GetYearFolder(t, next, year).value;
    var c := GetContainer(y.folders, y.next, y.id, p, project.title).value;
    c.id in c.folders && !AllHarmless(CopiedBelow(c.folders, c.next, p, c.id, sources), p, c.folders[c.id].sortOrder)
  }

  /** One document's repair: other projects' rows stay; for its own project either everything that was in
    * the container is still there, and the document's folder with it, or the copied folder has taken the
    * container's place and only the document's folder lies in it. */
  lemma DocumentIsPlaced(t: Tree, next: FolderId, p: ProjectId, project: Project, year: nat, sources: seq<Folder>)
    requires SoundTree(t, next) && PlaceDocument(t, next, p, project, year, sources).Ok?
    ensures var r := PlaceDocument(t, next, p, project, year, sources).value;
            && Frame(t, r.folders, p) && PlacedSoundly(t, r) && Homed(r.folders, r.id, p)
            && (if Demotes(t, next, p, project, year, sources) then Displaced(r.folders, t.Keys, p)
                else Steady(t, r.folders, p))
  {
    DocumentIsPlacedSoundly(t, next, p, project, year, sources);
    var y := GetYearFolder(t, next, year).value;
    YearIsPlacedSoundly(t, next, year);
    YearIsPublic(t, next, year);
    PublicOnlyFrames(t, y.folders, p);
    UntouchedIsSteady(t, y.folders, p);
    DocumentBelowYear(y.folders, y.next, y.id, p, project.title, sources);
    var c := GetContainer(y.folders, y.next, y.id, p, project.title).value;
    var r := PlaceTarget(c.folders, c.next, p, c.id, sources);
    FrameTransitive(t, y.folders, r.folders, p);
    if Demotes(t, next, p, project, year, sources) {
      assert t.Keys <= y.folders.Keys;
    } else {
      SteadyTransitive(t, y.folders, r.folders, p);
    }
  }

  lemma DocumentBelowYear(t: Tree, next: FolderId, yearFolder: FolderId, p: ProjectId, title: string, sources: seq<Folder>)
    requires SoundTree(t, next) && yearFolder in t && t[yearFolder].project == None
    requires GetContainer(t, next, yearFolder, p, title).Ok?
    ensures var c := GetContainer(t, next, yearFolder, p, title).value;
            var r := PlaceTarget(c.folders, c.next, p, c.id, sources);
            && c.id in c.folders && Frame(t, r.folders, p) && Homed(r.folders, r.id, p)
            && (if AllHarmless(CopiedBelow(c.folders, c.next, p, c.id, sources), p, c.folders[c.id].sortOrder)
                then Steady(t, r.folders, p) else Displaced(r.folders, t.Keys, p))
  {
    var c := GetContainer(t, next, yearFolder, p, title).value;
    ContainerIsSound(t, next, yearFolder, p, title);
    ContainerFrames(t, next, yearFolder, p, title);
    ContainerIsHome(t, next, yearFolder, p, title);
    TargetIsPlaced(c.folders, c.next, p, c.id, sources);
    var r := PlaceTarget(c.folders, c.next, p, c.id, sources);
    FrameTransitive(t, c.folders, r.folders, p);
    if AllHarmless(CopiedBelow(c.folders, c.next, p, c.id, sources), p, c.folders[c.id].sortOrder) {
      SteadyTransitive(t, c.folders, r.folders, p);
      HomeIsFirst(r.folders, p, c.id);
    }
  }

  // ---------------------------------------------------------------- after the home is displaced

  /** Work for other projects does not undo it. */
  lemma DisplacedStays(t: Tree, u: Tree, olds: set<FolderId>, p: ProjectId)
    requires Displaced(t, olds, p) && SameRows(t, u, p) && Closed(u) && Shares(u) && olds <= u.Keys
    requires Grown(t, u)
    ensures Displaced(u, olds, p)
  {
    assert forall y :: y in ActiveContainers(t, p) <==> y in ActiveContainers(u, p);
    assert SameContainers(t, u, p);
    SameFirst(t, u, p);
    var h := FirstOf(t, ActiveContainers(t, p));
    forall x | x in olds ensures !Below(u, x, h) {
      if Below(u, x, h) {
        var n: nat :| Up(u, Some(x), n) == Some(h);
        BelowOwnInBoth(t, u, x, h, n, p);
      }
    }
    var a, b :| a in Containers(t, p) && b in Containers(t, p) && a != b;
    assert a in Containers(u, p) && b in Containers(u, p);
  }

  lemma {:induction false} BelowOwnInBoth(t: Tree, u: Tree, x: FolderId, h: FolderId, n: nat, p: ProjectId)
    requires SameRows(t, u, p) && Closed(u) && Shares(u) && x in u && h in u && u[h].project == Some(p)
    requires Up(u, Some(x), n) == Some(h)
    ensures Below(t, x, h)
    decreases n
  {
    BelowSelf(t, x);
    if n > 0 {
      BelowOwnIsOwn(u, x, h, n);
      BelowOwnInBoth(t, u, u[x].parent.value, h, n - 1, p);
      BelowParent(t, x, u[x].parent.value);
      BelowTransitive(t, x, u[x].parent.value, h);
    }
  }

  /** A document still to be looked at does not lie in the displaced project's first container, as far as
    * it can tell. */
  lemma {:induction false} ViewAvoids(t0: Tree, t: Tree, f: FolderId, x: FolderId, h: FolderId, n: nat)
    requires Closed(t0) && t0.Keys <= t.Keys && (forall y <- t0 :: !Below(t, y, h))
    requires !Below(t, x, h)
    ensures Up(Seen(t0, t, f), Some(x), n) != Some(h)
    decreases n
  {
    var view := Seen(t0, t, f);
    BelowUnfold(t, x, h);
    if n > 0 && Parent(view, x).Some? {
      var y := Parent(view, x).value;
      assert !Below(t, y, h) by {
        if view[x] == t[x] {
        } else {
          assert x in t0 && view[x] == t0[x];
        }
      }
      ViewAvoids(t0, t, f, y, h, n - 1);
    }
  }

  lemma TwoContainersRaise(t: Tree, next: FolderId, yearFolder: FolderId, p: ProjectId, title: string, a: FolderId,
                           b: FolderId)
    requires a in Containers(t, p) && b in Containers(t, p) && a != b
    ensures GetContainer(t, next, yearFolder, p, title).Err?
  {
  }

  /** The project's next repair finds two containers and raises. */
  lemma DisplacedRaises(t: Tree, next: FolderId, olds: set<FolderId>, p: ProjectId, project: Project, year: nat,
                        sources: seq<Folder>)
    requires SoundTree(t, next) && Displaced(t, olds, p)
    ensures PlaceDocument(t, next, p, project, year, sources).Err?
  {
    if GetYearFolder(t, next, year).Ok? {
      YearIsPublic(t, next, year);
      var y := GetYearFolder(t, next, year).value;
      PublicOnlyFrames(t, y.folders, p);
      var a, b :| a in Containers(t, p) && b in Containers(t, p) && a != b;
      TwoContainersRaise(y.folders, y.next, y.id, p, project.title, a, b);
    }
  }

  // ---------------------------------------------------------------- what a document remembers

  /** A folder that lay in the container when the document was read, as far as the document can tell,
    * lies in it now. */
  lemma SkippedIsHomed(t0: Tree, t: Tree, f: FolderId, p: ProjectId)
    requires Closed(t0) && Shares(t0) && Closed(t) && Grown(t0, t) && Steady(t0, t, p)
    requires forall x <- t0 :: t0[x].project == None ==> t[x].parent == t0[x].parent
    requires f in t0 && (t0[f].project == Some(p) || t0[f].project == None)
    requires ActiveContainers(t, p) != {} && Below(Seen(t0, t, f), f, FirstOf(t, ActiveContainers(t, p)))
    ensures Homed(t, f, p)
  {
    var view := Seen(t0, t, f);
    var c := FirstOf(t, ActiveContainers(t, p));
    if t[f].parent == t0[f].parent {
      var q := t0[f].parent;
      if q.Some? && t[q.value].parent != t0[q.value].parent {
        assert Homed(t, q.value, p);
        BelowParent(t, f, q.value);
        BelowTransitive(t, f, q.value, c);
      } else {
        assert AgreeOutside(view, t, {});
        var n: nat :| Up(view, Some(f), n) == Some(c);
        UpUnmoved(view, t, {}, Some(f), n);
      }
    }
  }
}
