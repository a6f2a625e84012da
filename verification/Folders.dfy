/** Folder and project requests: each is one transaction on the folder, project and document rows. */
module Folders {
  import opened Prelude
  import opened Numerals
  import opened Forest

  type DocumentId = nat

  datatype ProjectStatus = Active | Archived

  // `year` is the year of archived_at.
  datatype Project = Project(status: ProjectStatus, year: Option<nat>, title: string)

  datatype Document = Document(project: Option<ProjectId>, folder: FolderId, deleted: bool)

  datatype World = World(folders: Tree, projects: map<ProjectId, Project>,
                         documents: map<DocumentId, Document>, nextFolder: FolderId, nextDocument: DocumentId)

  datatype FolderError =
    | NotFound | ProjectMismatch | ProjectIsArchived | NotPermitted | ParentInactive | IntoItself
    | IntoDescendant | PublicNeedsParent | DuplicateName | SystemRoot | HasActiveChildren
    | HasDocuments | HasForeignDocuments | MultipleFolders | AlreadyArchived | NotArchived
    | ProtectedReference | NotAcceptable

  // ---------------------------------------------------------------- defaults.py

  datatype Definition = Definition(code: string, name: string, sortOrder: int, aliases: seq<string>)

  const ENTRY_ROOT := Definition("PUBLIC-COMPLETION", "入场前置资料", 1,
    ["竣工资料档案", "竣工档案资料", "完工资料档案", "完工资料", "档案资料", "项目过程资料",
     "过程资料", "检测报告", "其他附件"])

  const STANDARD_ROOTS: seq<Definition> := [
    ENTRY_ROOT,
    Definition("PUBLIC-COMPANY", "公司资质", 2, []),
    Definition("PUBLIC-TECH-SOLUTION", "技术方案", 3, []),
    Definition("PUBLIC-REPORT-TEMPLATE", "报告模板", 4, []),
    Definition("PUBLIC-TOOLS", "工器具及年检资质", 5, ["工具及年检资质", "工器具年检资质"]),
    Definition("PUBLIC-INSTRUMENT", "仪器仪表设备年检资质", 6, ["仪器设备年检资质"]),
    Definition("PUBLIC-VEHICLE", "车辆年检资质", 7, ["车辆年检及资质"]),
    Definition("PUBLIC-STAFF", "人员资质", 8, []),
    Definition("PUBLIC-STAFF-INSURANCE", "人员保险单", 9, ["人员报销单"]),
    Definition("PUBLIC-PROTECTION", "个人防护用品", 10, ["劳动防护用品资料", "劳动防护用品"])]

  const ARCHIVE_ROOT := Definition("PUBLIC-ARCHIVE", "已归档文件", 99, ["归档材料", "归档资料"])

  predicate Names(d: Definition, name: string) {
    name == d.name || name in d.aliases
  }

  function ContainerCode(p: ProjectId): string {
    "PROJECT-ARCHIVE-" + Decimal(p)
  }

  function YearName(year: nat): string {
    Decimal(year) + "年归档资料"
  }

  function YearCode(year: nat): string {
    ARCHIVE_ROOT.code + "-" + Decimal(year)
  }

  // ---------------------------------------------------------------- folders/services.py

  predicate WriteAllowed(w: World, project: Option<ProjectId>) {
    project.Some? && project.value in w.projects ==> w.projects[project.value].status != Archived
  }

  predicate NameTaken(t: Tree, project: Option<ProjectId>, parent: Option<FolderId>, name: string,
                      except: Option<FolderId>) {
    exists x :: x in t && Some(x) != except && t[x].project == project && t[x].parent == parent
                && t[x].name == name && t[x].active
  }

  function CreateFolder(w: World, project: Option<ProjectId>, parent: Option<FolderId>, name: string,
                        code: string, sortOrder: int, permitted: bool): Result<World, FolderError> {
    if (parent.Some? && parent.value !in w.folders) || (project.Some? && project.value !in w.projects) then
      Err(NotFound)
    else
      var owner := if parent.Some? then w.folders[parent.value].project else project;
      if parent.Some? && project.Some? && project != owner then Err(ProjectMismatch)
      else if !WriteAllowed(w, owner) then Err(ProjectIsArchived)
      else if !permitted then Err(NotPermitted)
      else if parent.Some? && !w.folders[parent.value].active then Err(ParentInactive)
      else if owner == None && parent == None then Err(PublicNeedsParent)
      else if NameTaken(w.folders, owner, parent, name, None) then Err(DuplicateName)
      else
        Ok(w.(folders := w.folders[w.nextFolder := Folder(owner, parent, name, code, sortOrder, true, false)],
              nextFolder := w.nextFolder + 1))
  }

  function UpdateFolder(w: World, f: FolderId, name: Option<string>, code: Option<string>,
                        sortOrder: Option<int>, permitted: bool): Result<World, FolderError> {
    if f !in w.folders then Err(NotFound)
    else
      var row := w.folders[f];
      if row.systemRoot then Err(SystemRoot)
      else if !WriteAllowed(w, row.project) then Err(ProjectIsArchived)
      else if !permitted then Err(NotPermitted)
      else if name.Some? && NameTaken(w.folders, row.project, row.parent, name.value, Some(f)) then
        Err(DuplicateName)
      else
        var renamed := if name.Some? then row.(name := name.value) else row;
        var recoded := if code.Some? then renamed.(code := code.value) else renamed;
        var sorted := if sortOrder.Some? then recoded.(sortOrder := sortOrder.value) else recoded;
        Ok(w.(folders := w.folders[f := sorted]))
  }

  ghost function MoveFolder(w: World, f: FolderId, parent: Option<FolderId>, sortOrder: Option<int>,
                            permitted: bool): Result<World, FolderError> {
    if f !in w.folders || (parent.Some? && parent.value !in w.folders) then Err(NotFound)
    else
      var t := w.folders;
      var row := t[f];
      if row.systemRoot then Err(SystemRoot)
      else if !WriteAllowed(w, row.project) then Err(ProjectIsArchived)
      else if !permitted then Err(NotPermitted)
      else if row.project == None && parent == None then Err(PublicNeedsParent)
      else if parent.Some? && !t[parent.value].active then Err(ParentInactive)
      else if parent.Some? && t[parent.value].project != row.project then Err(ProjectMismatch)
      else if parent == Some(f) then Err(IntoItself)
      else if parent.Some? && ProperlyBelow(t, parent.value, f) then Err(IntoDescendant)
      else if NameTaken(t, row.project, parent, row.name, Some(f)) then Err(DuplicateName)
      else
        var moved := row.(parent := parent);
        var sorted := if sortOrder.Some? then moved.(sortOrder := sortOrder.value) else moved;
        Ok(w.(folders := t[f := sorted]))
  }

  predicate HasChild(t: Tree, f: FolderId) {
    exists x :: x in t && t[x].parent == Some(f)
  }

  function DisableFolder(w: World, f: FolderId, permitted: bool): Result<World, FolderError> {
    if f !in w.folders then Err(NotFound)
    else
      var row := w.folders[f];
      if row.systemRoot then Err(SystemRoot)
      else if !WriteAllowed(w, row.project) then Err(ProjectIsArchived)
      else if !permitted then Err(NotPermitted)
      else if exists x :: x in w.folders && w.folders[x].parent == Some(f) && w.folders[x].active then
        Err(HasActiveChildren)
      else if exists d :: d in w.documents && w.documents[d].folder == f && !w.documents[d].deleted then
        Err(HasDocuments)
      else Ok(w.(folders := w.folders[f := row.(active := false)]))
  }

  // ---------------------------------------------------------------- projects/services.py: archive folders

  ghost function Least(ids: set<FolderId>): (m: FolderId)
    requires ids != {}
    ensures m in ids && forall x <- ids :: m <= x
  {
    LeastExists(ids);
    var m :| m in ids && forall x <- ids :: m <= x;
    m
  }

  lemma LeastExists(ids: set<FolderId>)
    requires ids != {}
    ensures exists m :: m in ids && forall x <- ids :: m <= x
  {
    var m := FindLeast(ids);
  }

  lemma {:induction false} FindLeast(ids: set<FolderId>) returns (m: FolderId)
    requires ids != {}
    ensures m in ids && forall x <- ids :: m <= x
    decreases ids
  {
    m :| m in ids;
    var rest := ids - {m};
    if rest == {} {
      assert ids == {m};
    } else {
      var least := FindLeast(rest);
      assert ids == rest + {m};
      m := if least <= m then least else m;
    }
  }

  /** The order of Folder.Meta: sort order, then id. */
  predicate ComesFirst(t: Tree, x: FolderId, y: FolderId)
    requires x in t && y in t
  {
    t[x].sortOrder < t[y].sortOrder || (t[x].sortOrder == t[y].sortOrder && x <= y)
  }

  ghost function FirstOf(t: Tree, ids: set<FolderId>): (m: FolderId)
    requires ids != {} && ids <= t.Keys
    ensures m in ids && forall x <- ids :: ComesFirst(t, m, x)
  {
    FirstExists(t, ids);
    var m :| m in ids && forall x <- ids :: ComesFirst(t, m, x);
    m
  }

  lemma FirstOfTwo(t: Tree, a: FolderId, b: FolderId, x: FolderId)
    requires a in t && b in t && x in t && (x == b || ComesFirst(t, a, x))
    ensures ComesFirst(t, if ComesFirst(t, a, b) then a else b, x)
  {
  }

  lemma FirstExists(t: Tree, ids: set<FolderId>)
    requires ids != {} && ids <= t.Keys
    ensures exists m :: m in ids && forall x <- ids :: ComesFirst(t, m, x)
  {
    var m := FindFirst(t, ids);
  }

  lemma {:induction false} FindFirst(t: Tree, ids: set<FolderId>) returns (m: FolderId)
    requires ids != {} && ids <= t.Keys
    ensures m in ids && forall x <- ids :: ComesFirst(t, m, x)
    decreases ids
  {
    var b :| b in ids;
    var rest := ids - {b};
    if rest == {} {
      assert ids == {b};
      m := b;
    } else {
      var a := FindFirst(t, rest);
      m := if ComesFirst(t, a, b) then a else b;
      forall x | x in ids ensures ComesFirst(t, m, x) {
        assert x == b || x in rest;
        FirstOfTwo(t, a, b, x);
      }
    }
  }

  // The rows after a get-or-create, the row it settled on, and the next free id.
  datatype Placed = Placed(folders: Tree, id: FolderId, next: FolderId)

  function ArchiveRoots(t: Tree): set<FolderId> {
    set x <- t | t[x].project == None && t[x].parent == None
                 && (t[x].code == ARCHIVE_ROOT.code || Names(ARCHIVE_ROOT, t[x].name))
  }

  ghost function GetArchiveRoot(t: Tree, next: FolderId): Placed {
    var found := ArchiveRoots(t);
    if found == {} then
      Placed(t[next := Folder(None, None, ARCHIVE_ROOT.name, ARCHIVE_ROOT.code, ARCHIVE_ROOT.sortOrder, true, true)],
             next, next + 1)
    else
      var r := Least(found);
      Placed(t[r := t[r].(name := ARCHIVE_ROOT.name, code := ARCHIVE_ROOT.code,
                          sortOrder := ARCHIVE_ROOT.sortOrder, systemRoot := true, active := true)], r, next)
  }

  function YearFolders(t: Tree, root: FolderId, year: nat): set<FolderId> {
    set x <- t | t[x].project == None && t[x].parent == Some(root) && t[x].name == YearName(year)
  }

  /** get_or_create raises when several rows match. */
  ghost function PlaceYearFolder(t: Tree, next: FolderId, root: FolderId, year: nat): Result<Placed, FolderError> {
    var found := YearFolders(t, root, year);
    if found == {} then
      Ok(Placed(t[next := Folder(None, Some(root), YearName(year), YearCode(year), year, true, false)], next, next + 1))
    else
      var y := Least(found);
      if found != {y} then Err(MultipleFolders)
      else Ok(Placed(t[y := t[y].(systemRoot := false, active := true, code := YearCode(year))], y, next))
  }

  ghost function GetYearFolder(t: Tree, next: FolderId, year: nat): Result<Placed, FolderError> {
    var root := GetArchiveRoot(t, next);
    PlaceYearFolder(root.folders, root.next, root.id, year)
  }

  function Containers(t: Tree, p: ProjectId): set<FolderId> {
    set x <- t | t[x].project == Some(p) && t[x].code == ContainerCode(p)
  }

  ghost function GetContainer(t: Tree, next: FolderId, yearFolder: FolderId, p: ProjectId, title: string):
      Result<Placed, FolderError> {
    var found := Containers(t, p);
    if found == {} then
      Ok(Placed(t[next := Folder(Some(p), Some(yearFolder), title, ContainerCode(p), p, true, false)], next, next + 1))
    else
      var c := Least(found);
      if found != {c} then Err(MultipleFolders)
      else Ok(Placed(t[c := t[c].(parent := Some(yearFolder), name := title, active := true)], c, next))
  }

  function TopLevel(t: Tree, p: ProjectId): set<FolderId> {
    set x <- t | t[x].project == Some(p) && t[x].parent == None
  }

  function ChildrenOf(t: Tree, p: ProjectId, c: FolderId): set<FolderId> {
    set x <- t | t[x].project == Some(p) && t[x].parent == Some(c)
  }

  /** A bulk update of the parent column. */
  function Reparented(t: Tree, moved: set<FolderId>, target: Option<FolderId>): Tree {
    map x <- t :: if x in moved then t[x].(parent := target) else t[x]
  }

  ghost function ArchiveProject(w: World, p: ProjectId, year: nat): Result<World, FolderError> {
    if p !in w.projects then Err(NotFound)
    else if w.projects[p].status == Archived then Err(AlreadyArchived)
    else
      match GetYearFolder(w.folders, w.nextFolder, year)
      case Err(e) => Err(e)
      case Ok(y) =>
        match GetContainer(y.folders, y.next, y.id, p, w.projects[p].title)
        case Err(e) => Err(e)
        case Ok(c) =>
          Ok(w.(folders := Reparented(c.folders, TopLevel(c.folders, p), Some(c.id)), nextFolder := c.next,
                projects := w.projects[p := w.projects[p].(status := Archived, year := Some(year))]))
  }

  /** Containers that unarchive looks at: below a public folder, or at the top. */
  function Unarchivable(t: Tree, p: ProjectId): set<FolderId> {
    set x <- Containers(t, p) | x in t &&
      (t[x].parent.None? || (t[x].parent.value in t && t[t[x].parent.value].project == None))
  }

  predicate HoldsDocument(documents: map<DocumentId, Document>, f: FolderId) {
    exists d :: d in documents && documents[d].folder == f
  }

  ghost function Restored(t: Tree, documents: map<DocumentId, Document>, p: ProjectId): Tree {
    var found := Unarchivable(t, p);
    if found == {} then t
    else
      var c := FirstOf(t, found);
      var freed := Reparented(t, ChildrenOf(t, p, c), None);
      if HasChild(freed, c) || HoldsDocument(documents, c) then freed else freed - {c}
  }

  ghost function UnarchiveProject(w: World, p: ProjectId): Result<World, FolderError> {
    if p !in w.projects then Err(NotFound)
    else if w.projects[p].status == Active then Err(NotArchived)
    else Ok(w.(folders := Restored(w.folders, w.documents, p),
               projects := w.projects[p := w.projects[p].(status := Active, year := None)]))
  }

  // ---------------------------------------------------------------- projects: create

  /** ensure_project_standard_folders for a project that has no folder yet. */
  function StandardFolders(t: Tree, next: FolderId, p: ProjectId, definitions: seq<Definition>): Tree
    decreases |definitions|
  {
    if definitions == [] then t
    else
      var d := definitions[0];
      StandardFolders(t[next := Folder(Some(p), None, d.name, d.code, d.sortOrder, true, false)],
                      next + 1, p, definitions[1..])
  }

  function CreateProject(w: World, p: ProjectId, title: string): Result<World, FolderError> {
    if p in w.projects || (exists x :: x in w.folders && w.folders[x].project == Some(p)) then Err(NotFound)
    else Ok(w.(projects := w.projects[p := Project(Active, None, title)],
               folders := StandardFolders(w.folders, w.nextFolder, p, STANDARD_ROOTS),
               nextFolder := w.nextFolder + |STANDARD_ROOTS|))
  }

  // ---------------------------------------------------------------- documents

  function AddDocument(w: World, f: FolderId, acceptable: bool): Result<World, FolderError> {
    if f !in w.folders then Err(NotFound)
    else
      var row := w.folders[f];
      if !row.active then Err(ParentInactive)
      else if !WriteAllowed(w, row.project) then Err(ProjectIsArchived)
      else if !acceptable then Err(NotAcceptable)
      else Ok(w.(documents := w.documents[w.nextDocument := Document(row.project, f, false)],
                 nextDocument := w.nextDocument + 1))
  }

  function MoveDocument(w: World, d: DocumentId, f: FolderId, acceptable: bool): Result<World, FolderError> {
    if d !in w.documents || f !in w.folders then Err(NotFound)
    else
      var row := w.documents[d];
      if row.deleted then Err(NotAcceptable)
      else if !WriteAllowed(w, row.project) then Err(ProjectIsArchived)
      else if !w.folders[f].active then Err(ParentInactive)
      else if w.folders[f].project != row.project then Err(ProjectMismatch)
      else if !acceptable then Err(NotAcceptable)
      else Ok(w.(documents := w.documents[d := row.(folder := f)]))
  }

  function SetDocumentDeleted(w: World, d: DocumentId, deleted: bool, acceptable: bool): Result<World, FolderError> {
    if d !in w.documents then Err(NotFound)
    else
      var row := w.documents[d];
      if row.deleted == deleted then Err(NotAcceptable)
      else if !WriteAllowed(w, row.project) then Err(ProjectIsArchived)
      else if !acceptable then Err(NotAcceptable)
      else if !deleted && (row.folder !in w.folders || !w.folders[row.folder].active) then Err(ParentInactive)
      else Ok(w.(documents := w.documents[d := row.(deleted := deleted)]))
  }

  function PurgeDocument(w: World, d: DocumentId, permitted: bool): Result<World, FolderError> {
    if d !in w.documents then Err(NotFound)
    else if !permitted || !w.documents[d].deleted then Err(NotAcceptable)
    else Ok(w.(documents := w.documents - {d}))
  }
}
