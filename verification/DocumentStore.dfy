/** The document tables and the file store: files are written before the transaction and removed again
  * when it fails, or removed after it when the document goes. */
module DocumentStore {
  import opened Prelude
  import Documents

  type Library = Documents.Library
  type Document = Documents.Document
  type Version = Documents.Version
  type DocumentId = Documents.DocumentId
  type VersionId = Documents.VersionId
  type Refusal = Documents.Refusal
  type Upload = Documents.Upload
  type Path = Documents.Path

  ghost predicate Answers(spec: Result<Library, Refusal>, before: Library, after: Library, refusal: Option<Refusal>) {
    match spec
    case Ok(w) => refusal == None && after == w
    case Err(e) => refusal == Some(e) && after == before
  }

  class Store {
    var documents: map<DocumentId, Document>
    var versions: map<VersionId, Version>
    var files: set<Path>
    var nextDocument: DocumentId
    var nextVersion: VersionId

    ghost function View(): Library
      reads this
    {
      Documents.Library(documents, versions, files, nextDocument, nextVersion)
    }

    constructor ()
      ensures View() == Documents.Library(map[], map[], {}, 0, 0)
    {
      documents, versions, files, nextDocument, nextVersion := map[], map[], {}, 0, 0;
    }

    method CreateDocument(u: Upload) returns (refusal: Option<Refusal>)
      requires u.path !in files
      modifies this
      ensures Answers(Documents.Create(old(View()), u), old(View()), View(), refusal)
    {
      if !u.allowed {
        return Some(Documents.NotAllowed);
      }
      if !u.stored {
        return Some(Documents.StoreFailed);
      }
      files := files + {u.path};
      if !u.accepted {
        files := files - {u.path};
        return Some(Documents.Invalid);
      }
      var d, v := nextDocument, nextVersion;
      nextDocument, nextVersion := d + 1, v + 1;
      documents := documents[d := Documents.Document(false, None, u.now)];
      versions := versions[v := Documents.Version(d, 1, u.path)];
      documents := documents[d := documents[d].(current := Some(v))];
      return None;
    }

    /** The largest version number of a document, or 0. */
    method LatestNumber(d: DocumentId) returns (latest: nat)
      ensures latest == Documents.Latest(versions, d)
    {
      latest := 0;
      var left := versions.Keys;
      while left != {}
        invariant left <= versions.Keys
        invariant forall v <- versions.Keys - left :: versions[v].document == d ==> versions[v].number <= latest
        invariant latest > 0 ==> latest in Documents.Numbers(versions, d)
        decreases left
      {
        var v :| v in left;
        if versions[v].document == d && versions[v].number > latest {
          latest := versions[v].number;
        }
        left := left - {v};
      }
      forall k | k in Documents.Numbers(versions, d) ensures k <= latest {
        var v :| v in versions && versions[v].document == d && versions[v].number == k;
      }
      if Documents.Numbers(versions, d) != {} && latest == 0 {
        assert Documents.Max(Documents.Numbers(versions, d)) == 0;
      }
    }

    method AddVersion(d: DocumentId, readDeleted: bool, u: Upload) returns (refusal: Option<Refusal>)
      requires u.path !in files
      modifies this
      ensures Answers(Documents.AddVersion(old(View()), d, readDeleted, u), old(View()), View(), refusal)
    {
      if readDeleted {
        return Some(Documents.Deleted);
      }
      if !u.allowed {
        return Some(Documents.NotAllowed);
      }
      if !u.stored {
        return Some(Documents.StoreFailed);
      }
      files := files + {u.path};
      var error: Option<Refusal> := None;
      if d !in documents {
        error := Some(Documents.Missing);
      } else if documents[d].deleted {
        error := Some(Documents.Deleted);
      } else if !u.accepted {
        error := Some(Documents.Invalid);
      }
      if error.Some? {
        files := files - {u.path};
        return error;
      }
      var latest := LatestNumber(d);
      var v := nextVersion;
      nextVersion := v + 1;
      versions := versions[v := Documents.Version(d, latest + 1, u.path)];
      documents := documents[d := documents[d].(current := Some(v), stamp := u.now)];
      return None;
    }

    method SetDeleted(d: DocumentId, deleted: bool, writable: bool, expected: int, allowed: bool, now: int)
        returns (refusal: Option<Refusal>)
      modifies this`documents
      ensures Answers(Documents.SetDeleted(old(View()), d, deleted, writable, expected, allowed, now),
                      old(View()), View(), refusal)
    {
      if d !in documents {
        return Some(Documents.Missing);
      }
      var row := documents[d];
      if row.deleted == deleted {
        return Some(if deleted then Documents.Deleted else Documents.NotDeleted);
      }
      if !writable {
        return Some(Documents.ProjectArchived);
      }
      if row.stamp != expected {
        return Some(Documents.Conflict);
      }
      if !allowed {
        return Some(Documents.NotAllowed);
      }
      documents := documents[d := row.(deleted := deleted)];
      Touch(d, now);
      return None;
    }

    /** Saving writes the clock's reading; when that is not later, the stamp is pushed past the old one. */
    method Touch(d: DocumentId, now: int)
      requires d in documents
      modifies this`documents
      ensures documents == old(documents)[d := old(documents)[d].(stamp := Documents.Touched(old(documents)[d].stamp, now))]
    {
      var previous := documents[d].stamp;
      documents := documents[d := documents[d].(stamp := now)];
      if documents[d].stamp <= previous {
        documents := documents[d := documents[d].(stamp := previous + 1)];
      }
    }

    method PermanentlyDelete(d: DocumentId, expected: int, allowed: bool) returns (refusal: Option<Refusal>)
      modifies this
      ensures Answers(Documents.Purge(old(View()), d, expected, allowed), old(View()), View(), refusal)
    {
      if d !in documents {
        return Some(Documents.Missing);
      }
      if documents[d].stamp != expected {
        return Some(Documents.Conflict);
      }
      if !allowed {
        return Some(Documents.NotAllowed);
      }
      if !documents[d].deleted {
        return Some(Documents.NotDeleted);
      }
      var gone := Documents.VersionsOf(versions, d);
      var paths := Documents.PathsOf(versions, gone);
      documents := documents[d := documents[d].(current := None)];
      documents, versions := documents - {d}, versions - gone;
      ghost var before := files;
      var left := paths;
      while left != {}
        invariant left <= paths && files == before - (paths - left)
        invariant documents == old(documents) - {d} && versions == old(versions) - gone
        invariant nextDocument == old(nextDocument) && nextVersion == old(nextVersion)
        decreases left
      {
        var path :| path in left;
        files := files - {path};
        left := left - {path};
      }
      return None;
    }
  }
}
