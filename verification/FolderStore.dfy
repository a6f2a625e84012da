/** The folder, project and document tables, and the requests that write them row by row. */
module FolderStore {
  import opened Prelude
  import opened Forest
  import Folders
  import opened FolderGraph
  import opened ProjectDeletion

  type World = Folders.World
  type FolderError = Folders.FolderError
  type Project = Folders.Project
  type Document = Folders.Document
  type DocumentId = Folders.DocumentId

  /** A request either makes the change its specification describes, or reports that one's error and
    * leaves every row alone. */
  ghost predicate Answers(spec: Result<World, FolderError>, before: World, after: World, error: Option<FolderError>) {
    match spec
    case Ok(w) => error == None && after == w
    case Err(e) => error == Some(e) && after == before
  }

  class Tables {
    var folders: Tree
    var projects: map<ProjectId, Project>
    var documents: map<DocumentId, Document>
    var nextFolder: FolderId
    var nextDocument: DocumentId

    ghost function View(): World
      reads this
    {
      Folders.World(folders, projects, documents, nextFolder, nextDocument)
    }

    constructor (rows: World)
      ensures View() == rows
    {
      folders, projects, documents := rows.folders, rows.projects, rows.documents;
      nextFolder, nextDocument := rows.nextFolder, rows.nextDocument;
    }

    method CreateFolder(project: Option<ProjectId>, parent: Option<FolderId>, name: string, code: string,
                        sortOrder: int, permitted: bool) returns (error: Option<FolderError>)
      modifies this
      ensures Answers(Folders.CreateFolder(old(View()), project, parent, name, code, sortOrder, permitted),
                      old(View()), View(), error)
    {
      if (parent.Some? && parent.value !in folders) || (project.Some? && project.value !in projects) {
        return Some(Folders.NotFound);
      }
      var owner := project;
      if parent.Some? {
        owner := folders[parent.value].project;
        if project.Some? && project != owner {
          return Some(Folders.ProjectMismatch);
        }
      }
      if owner.Some? && owner.value in projects && projects[owner.value].status == Folders.Archived {
        return Some(Folders.ProjectIsArchived);
      }
      if !permitted {
        return Some(Folders.NotPermitted);
      }
      if parent.Some? && !folders[parent.value].active {
        return Some(Folders.ParentInactive);
      }
      if owner == None && parent == None {
        return Some(Folders.PublicNeedsParent);
      }
      if Folders.NameTaken(folders, owner, parent, name, None) {
        return Some(Folders.DuplicateName);
      }
      folders := folders[nextFolder := Folder(owner, parent, name, code, sortOrder, true, false)];
      nextFolder := nextFolder + 1;
      return None;
    }

    method UpdateFolder(f: FolderId, name: Option<string>, code: Option<string>, sortOrder: Option<int>,
                        permitted: bool) returns (error: Option<FolderError>)
      modifies this
      ensures Answers(Folders.UpdateFolder(old(View()), f, name, code, sortOrder, permitted), old(View()), View(), error)
    {
      if f !in folders {
        return Some(Folders.NotFound);
      }
      var row := folders[f];
      if row.systemRoot {
        return Some(Folders.SystemRoot);
      }
      if row.project.Some? && row.project.value in projects && projects[row.project.value].status == Folders.Archived {
        return Some(Folders.ProjectIsArchived);
      }
      if !permitted {
        return Some(Folders.NotPermitted);
      }
      if name.Some? && Folders.NameTaken(folders, row.project, row.parent, name.value, Some(f)) {
        return Some(Folders.DuplicateName);
      }
      if name.Some? {
        row := row.(name := name.value);
      }
      if code.Some? {
        row := row.(code := code.value);
      }
      if sortOrder.Some? {
        row := row.(sortOrder := sortOrder.value);
      }
      folders := folders[f := row];
      return None;
    }

    /** The descendant check walks up the stored parents. */
    method MoveFolder(f: FolderId, parent: Option<FolderId>, sortOrder: Option<int>, permitted: bool)
        returns (error: Option<FolderError>)
      requires IsForest(folders)
      modifies this
      ensures Answers(Folders.MoveFolder(old(View()), f, parent, sortOrder, permitted), old(View()), View(), error)
    {
      if f !in folders || (parent.Some? && parent.value !in folders) {
        return Some(Folders.NotFound);
      }
      var row := folders[f];
      if row.systemRoot {
        return Some(Folders.SystemRoot);
      }
      if row.project.Some? && row.project.value in projects && projects[row.project.value].status == Folders.Archived {
        return Some(Folders.ProjectIsArchived);
      }
      if !permitted {
        return Some(Folders.NotPermitted);
      }
      if row.project == None && parent == None {
        return Some(Folders.PublicNeedsParent);
      }
      if parent.Some? {
        if !folders[parent.value].active {
          return Some(Folders.ParentInactive);
        }
        if folders[parent.value].project != row.project {
          return Some(Folders.ProjectMismatch);
        }
        if parent.value == f {
          return Some(Folders.IntoItself);
        }
        var inside := IsDescendant(folders, parent.value, f);
        if inside {
          return Some(Folders.IntoDescendant);
        }
      }
      if Folders.NameTaken(folders, row.project, parent, row.name, Some(f)) {
        return Some(Folders.DuplicateName);
      }
      row := row.(parent := parent);
      if sortOrder.Some? {
        row := row.(sortOrder := sortOrder.value);
      }
      folders := folders[f := row];
      return None;
    }

    method DisableFolder(f: FolderId, permitted: bool) returns (error: Option<FolderError>)
      modifies this
      ensures Answers(Folders.DisableFolder(old(View()), f, permitted), old(View()), View(), error)
    {
      if f !in folders {
        return Some(Folders.NotFound);
      }
      var row := folders[f];
      if row.systemRoot {
        return Some(Folders.SystemRoot);
      }
      if row.project.Some? && row.project.value in projects && projects[row.project.value].status == Folders.Archived {
        return Some(Folders.ProjectIsArchived);
      }
      if !permitted {
        return Some(Folders.NotPermitted);
      }
      if exists x :: x in folders && folders[x].parent == Some(f) && folders[x].active {
        return Some(Folders.HasActiveChildren);
      }
      if exists d :: d in documents && documents[d].folder == f && !documents[d].deleted {
        return Some(Folders.HasDocuments);
      }
      folders := folders[f := row.(active := false)];
      return None;
    }

    // -------------------------------------------------------------- archive folders

    method GetArchiveRoot() returns (id: FolderId)
      modifies this`folders, this`nextFolder
      ensures Folders.Placed(folders, id, nextFolder) == Folders.GetArchiveRoot(old(folders), old(nextFolder))
    {
      var d := Folders.ARCHIVE_ROOT;
      var found := Folders.ArchiveRoots(folders);
      if found == {} {
        id := nextFolder;
        folders := folders[id := Folder(None, None, d.name, d.code, d.sortOrder, true, true)];
        nextFolder := nextFolder + 1;
      } else {
        Folders.LeastExists(found);
        id :| id in found && forall x <- found :: id <= x;
        assert id == Folders.Least(found);
        folders := folders[id := folders[id].(name := d.name, code := d.code, sortOrder := d.sortOrder,
                                              systemRoot := true, active := true)];
      }
    }

    method GetYearFolder(year: nat) returns (r: Result<FolderId, FolderError>)
      modifies this`folders, this`nextFolder
      ensures match Folders.GetYearFolder(old(folders), old(nextFolder), year)
              case Ok(placed) => r.Ok? && Folders.Placed(folders, r.value, nextFolder) == placed
              case Err(e) => r == Err(e)
    {
      var root := GetArchiveRoot();
      var found := Folders.YearFolders(folders, root, year);
      if found == {} {
        var id := nextFolder;
        folders := folders[id := Folder(None, Some(root), Folders.YearName(year), Folders.YearCode(year), year, true, false)];
        nextFolder := nextFolder + 1;
        return Ok(id);
      }
      Folders.LeastExists(found);
      var id :| id in found && forall x <- found :: id <= x;
      assert id == Folders.Least(found);
      if found != {id} {
        return Err(Folders.MultipleFolders);
      }
      folders := folders[id := folders[id].(systemRoot := false, active := true, code := Folders.YearCode(year))];
      return Ok(id);
    }

    method GetContainer(yearFolder: FolderId, p: ProjectId, title: string) returns (r: Result<FolderId, FolderError>)
      modifies this`folders, this`nextFolder
      ensures match Folders.GetContainer(old(folders), old(nextFolder), yearFolder, p, title)
              case Ok(placed) => r.Ok? && Folders.Placed(folders, r.value, nextFolder) == placed
              case Err(e) => r == Err(e)
    {
      var found := Folders.Containers(folders, p);
      if found == {} {
        var id := nextFolder;
        folders := folders[id := Folder(Some(p), Some(yearFolder), title, Folders.ContainerCode(p), p, true, false)];
        nextFolder := nextFolder + 1;
        return Ok(id);
      }
      Folders.LeastExists(found);
      var id :| id in found && forall x <- found :: id <= x;
      assert id == Folders.Least(found);
      if found != {id} {
        return Err(Folders.MultipleFolders);
      }
      folders := folders[id := folders[id].(parent := Some(yearFolder), name := title, active := true)];
      return Ok(id);
    }

    /** One transaction: an error on the way puts the rows back. */
    method ArchiveProject(p: ProjectId, year: nat) returns (error: Option<FolderError>)
      modifies this
      ensures Answers(Folders.ArchiveProject(old(View()), p, year), old(View()), View(), error)
    {
      if p !in projects {
        return Some(Folders.NotFound);
      }
      if projects[p].status == Folders.Archived {
        return Some(Folders.AlreadyArchived);
      }
      var savedFolders, savedNext := folders, nextFolder;
      var y := GetYearFolder(year);
      if y.Err? {
        folders, nextFolder := savedFolders, savedNext;
        return Some(y.error);
      }
      var c := GetContainer(y.value, p, projects[p].title);
      if c.Err? {
        folders, nextFolder := savedFolders, savedNext;
        return Some(c.error);
      }
      folders := Folders.Reparented(folders, Folders.TopLevel(folders, p), Some(c.value));
      projects := projects[p := projects[p].(status := Folders.Archived, year := Some(year))];
      return None;
    }

    method UnarchiveProject(p: ProjectId) returns (error: Option<FolderError>)
      modifies this
      ensures Answers(Folders.UnarchiveProject(old(View()), p), old(View()), View(), error)
    {
      if p !in projects {
        return Some(Folders.NotFound);
      }
      if projects[p].status == Folders.Active {
        return Some(Folders.NotArchived);
      }
      RestoreFolders(p);
      projects := projects[p := projects[p].(status := Folders.Active, year := None)];
      return None;
    }

    method RestoreFolders(p: ProjectId)
      modifies this`folders
      ensures folders == Folders.Restored(old(folders), documents, p)
    {
      var found := Folders.Unarchivable(folders, p);
      if found == {} {
        return;
      }
      Folders.FirstExists(folders, found);
      var c :| c in found && forall x <- found :: Folders.ComesFirst(folders, c, x);
      assert c == Folders.FirstOf(folders, found);
      folders := Folders.Reparented(folders, Folders.ChildrenOf(folders, p, c), None);
      if !Folders.HasChild(folders, c) && !Folders.HoldsDocument(documents, c) {
        folders := folders - {c};
      }
    }

    method CreateProject(p: ProjectId, title: string) returns (error: Option<FolderError>)
      modifies this
      ensures Answers(Folders.CreateProject(old(View()), p, title), old(View()), View(), error)
    {
      if p in projects || (exists x :: x in folders && folders[x].project == Some(p)) {
        return Some(Folders.NotFound);
      }
      projects := projects[p := Folders.Project(Folders.Active, None, title)];
      EnsureStandardFolders(p, Folders.STANDARD_ROOTS);
      return None;
    }

    method EnsureStandardFolders(p: ProjectId, definitions: seq<Folders.Definition>)
      modifies this`folders, this`nextFolder
      ensures folders == Folders.StandardFolders(old(folders), old(nextFolder), p, definitions)
      ensures nextFolder == old(nextFolder) + |definitions|
    {
      ghost var target := Folders.StandardFolders(folders, nextFolder, p, definitions);
      ghost var first := nextFolder;
      for i := 0 to |definitions|
        invariant nextFolder == first + i
        invariant Folders.StandardFolders(folders, nextFolder, p, definitions[i..]) == target
      {
        var d := definitions[i];
        assert definitions[i..][0] == d && definitions[i..][1..] == definitions[i + 1..];
        folders := folders[nextFolder := Folder(Some(p), None, d.name, d.code, d.sortOrder, true, false)];
        nextFolder := nextFolder + 1;
      }
    }

    method DeleteProject(p: ProjectId, listed: seq<FolderId>) returns (error: Option<FolderError>)
      requires SoundWorld(View()) && forall x :: x in listed <==> x in OwnFolders(folders, p)
      modifies this
      ensures Answers(ProjectDeletion.DeleteProject(old(View()), p), old(View()), View(), error)
    {
      var r := Delete(Folders.World(folders, projects, documents, nextFolder, nextDocument), p, listed);
      if r.Err? {
        return Some(r.error);
      }
      folders, projects, documents := r.value.folders, r.value.projects, r.value.documents;
      return None;
    }
  }
}
