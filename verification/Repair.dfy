/** The repair of archived documents: what a run does, document by document, and why it settles. */
module Repair {
  import opened Prelude
  import opened Forest
  import opened Folders

  // After a real repair `reported` is the folder the document was moved to: the source folder is read
  // off the document once it has been reassigned.
  datatype Fix = Fix(document: DocumentId, project: ProjectId, reported: FolderId, target: Option<FolderId>)

  datatype Outcome = Outcome(world: World, fixes: seq<Fix>)

  // ---------------------------------------------------------------- which documents, which container

  /** Live documents of archived projects. */
  function Due(w: World): set<DocumentId> {
    set d <- w.documents | !w.documents[d].deleted && w.documents[d].project.Some?
                           && w.documents[d].project.value in w.projects
                           && w.projects[w.documents[d].project.value].status == Archived
  }

  function ActiveContainers(t: Tree, p: ProjectId): set<FolderId> {
    set x <- Containers(t, p) | x in t && t[x].active
  }

  /** x lies in the first active container of its project. */
  ghost predicate Homed(t: Tree, x: FolderId, p: ProjectId) {
    ActiveContainers(t, p) != {} && Below(t, x, FirstOf(t, ActiveContainers(t, p)))
  }

  ghost function InOrder(ids: set<nat>): seq<nat> {
    if ids == {} then [] else var m := Least(ids); [m] + InOrder(ids - {m})
  }

  // ---------------------------------------------------------------- what a document remembers

  /** The folder and its parent were read with the document, before the first repair; everything above
    * is read when it is needed. */
  function Seen(t0: Tree, t: Tree, f: FolderId): Tree {
    if f !in t0 then t
    else
      var p := t0[f].parent;
      if p.Some? && p.value in t0 then t[p.value := t0[p.value]][f := t0[f]] else t[f := t0[f]]
  }

  /** Root first; stops before a folder would come twice. */
  function Chain(view: Tree, x: Option<FolderId>, seen: set<FolderId>): seq<FolderId>
    decreases view.Keys - seen
  {
    if x == None || x.value in seen || x.value !in view then []
    else Chain(view, view[x.value].parent, seen + {x.value}) + [x.value]
  }

  lemma {:induction false} ChainInside(view: Tree, x: Option<FolderId>, seen: set<FolderId>)
    ensures forall y <- Chain(view, x, seen) :: y in view && y !in seen
    ensures forall y <- Chain(view, x, seen) :: x.Some? && Below(view, x.value, y)
    decreases view.Keys - seen
  {
    if x != None && x.value !in seen && x.value in view {
      var p := view[x.value].parent;
      ChainInside(view, p, seen + {x.value});
      BelowSelf(view, x.value);
      forall y | y in Chain(view, p, seen + {x.value}) ensures Below(view, x.value, y) {
        BelowParent(view, x.value, p.value);
        BelowTransitive(view, x.value, p.value, y);
      }
    }
  }

  // ---------------------------------------------------------------- where it should go

  function DefinitionFor(row: Folder, definitions: seq<Definition>): Option<Definition>
    decreases |definitions|
  {
    if definitions == [] then None
    else if row.code == definitions[0].code || Names(definitions[0], row.name) then Some(definitions[0])
    else DefinitionFor(row, definitions[1..])
  }

  /** The first folder of the chain that is one of the standard roots, or the length of the chain. */
  function RootIndex(sources: seq<Folder>): (i: nat)
    ensures i <= |sources|
    ensures i < |sources| ==> DefinitionFor(sources[i], STANDARD_ROOTS).Some?
    ensures forall j :: 0 <= j < i ==> DefinitionFor(sources[j], STANDARD_ROOTS) == None
  {
    if sources == [] || DefinitionFor(sources[0], STANDARD_ROOTS).Some? then 0 else 1 + RootIndex(sources[1..])
  }

  function RowsOf(view: Tree, chain: seq<FolderId>): seq<Folder>
    requires forall x <- chain :: x in view
  {
    seq(|chain|, i requires 0 <= i < |chain| => view[chain[i]])
  }

  function WithCode(t: Tree, p: ProjectId, code: string): set<FolderId> {
    set x <- t | t[x].project == Some(p) && t[x].code == code
  }

  function Under(t: Tree, ids: set<FolderId>, parent: FolderId): set<FolderId> {
    set x <- ids | x in t && t[x].parent == Some(parent)
  }

  ghost function PlaceRoot(t: Tree, next: FolderId, p: ProjectId, c: FolderId, d: Definition): Placed {
    var any := WithCode(t, p, d.code);
    var under := Under(t, any, c);
    if any == {} then
      Placed(t[next := Folder(Some(p), Some(c), d.name, d.code, d.sortOrder, true, false)], next, next + 1)
    else
      var x := if under != {} then Least(under) else Least(any);
      Placed(t[x := t[x].(parent := Some(c), name := d.name, active := true)], x, next)
  }

  function Namesakes(t: Tree, p: ProjectId, parent: FolderId, name: string): set<FolderId> {
    set x <- t | t[x].project == Some(p) && t[x].parent == Some(parent) && t[x].name == name
  }

  ghost function PlaceChild(t: Tree, next: FolderId, p: ProjectId, parent: FolderId, source: Folder): Placed {
    var found := Namesakes(t, p, parent, source.name);
    if found == {} then
      Placed(t[next := Folder(Some(p), Some(parent), source.name, source.code, source.sortOrder, true, false)],
             next, next + 1)
    else
      var x := Least(found);
      Placed(t[x := t[x].(active := true)], x, next)
  }

  ghost function CopyChain(t: Tree, next: FolderId, p: ProjectId, parent: FolderId, sources: seq<Folder>): Placed
    decreases |sources|
  {
    if sources == [] then Placed(t, parent, next)
    else
      var r := PlaceChild(t, next, p, parent, sources[0]);
      CopyChain(r.folders, r.next, p, r.id, sources[1..])
  }

  ghost function PlaceTarget(t: Tree, next: FolderId, p: ProjectId, c: FolderId, sources: seq<Folder>): Placed {
    var i := RootIndex(sources);
    if i < |sources| then
      var r := PlaceRoot(t, next, p, c, DefinitionFor(sources[i], STANDARD_ROOTS).value);
      CopyChain(r.folders, r.next, p, r.id, sources[i + 1..])
    else CopyChain(t, next, p, c, sources)
  }

  /** Year folder, container and target, as one change of the folder rows. */
  ghost function PlaceDocument(t: Tree, next: FolderId, p: ProjectId, project: Project, year: nat, sources: seq<Folder>):
      Result<Placed, FolderError> {
    match GetYearFolder(t, next, year)
    case Err(e) => Err(e)
    case Ok(y) =>
      match GetContainer(y.folders, y.next, y.id, p, project.title)
      case Err(e) => Err(e)
      case Ok(c) => Ok(PlaceTarget(c.folders, c.next, p, c.id, sources))
  }

  ghost predicate NeedsRepair(t0: Tree, t: Tree, d: Document, p: ProjectId) {
    !(ActiveContainers(t, p) != {} && Below(Seen(t0, t, d.folder), d.folder, FirstOf(t, ActiveContainers(t, p))))
  }

  ghost function Sources(t0: Tree, t: Tree, f: FolderId): seq<Folder> {
    var view := Seen(t0, t, f);
    var chain := Chain(view, Some(f), {});
    ChainInside(view, Some(f), {});
    RowsOf(view, chain)
  }

  ghost function RepairDocument(w0: World, w: World, d: DocumentId, dryRun: bool): Result<Outcome, FolderError>
    requires d in Due(w0)
  {
    var document := w0.documents[d];
    var p := document.project.value;
    var project := w0.projects[p];
    if project.year == None || !NeedsRepair(w0.folders, w.folders, document, p) then Ok(Outcome(w, []))
    else if dryRun then Ok(Outcome(w, [Fix(d, p, document.folder, None)]))
    else
      match PlaceDocument(w.folders, w.nextFolder, p, project, project.year.value,
                          Sources(w0.folders, w.folders, document.folder))
      case Err(e) => Err(e)
      case Ok(placed) =>
        Ok(Outcome(w.(folders := placed.folders, nextFolder := placed.next,
                      documents := w.documents[d := document.(folder := placed.id)]),
                   [Fix(d, p, placed.id, Some(placed.id))]))
  }

  ghost function RepairFrom(w0: World, w: World, ids: seq<DocumentId>, dryRun: bool): Result<Outcome, FolderError>
    requires forall d <- ids :: d in Due(w0)
    decreases |ids|
  {
    if ids == [] then Ok(Outcome(w, []))
    else
      match RepairDocument(w0, w, ids[0], dryRun)
      case Err(e) => Err(e)
      case Ok(one) =>
        match RepairFrom(w0, one.world, ids[1..], dryRun)
        case Err(e) => Err(e)
        case Ok(rest) => Ok(Outcome(rest.world, one.fixes + rest.fixes))
  }

  lemma {:induction false} InOrderLists(ids: set<nat>)
    ensures forall x :: x in InOrder(ids) <==> x in ids
    ensures forall i, j :: 0 <= i < j < |InOrder(ids)| ==> InOrder(ids)[i] < InOrder(ids)[j]
  {
    if ids != {} {
      var m := Least(ids);
      InOrderLists(ids - {m});
      var rest := InOrder(ids - {m});
      assert InOrder(ids) == [m] + rest;
      forall i, j | 0 <= i < j < |InOrder(ids)| ensures InOrder(ids)[i] < InOrder(ids)[j] {
        assert InOrder(ids)[j] == rest[j - 1];
        assert rest[j - 1] in rest;
        if i > 0 {
          assert InOrder(ids)[i] == rest[i - 1];
        }
      }
    }
  }

  ghost function RepairAll(w: World, dryRun: bool): Result<Outcome, FolderError> {
    InOrderLists(Due(w));
    RepairFrom(w, w, InOrder(Due(w)), dryRun)
  }
}
