/** Documents, their versions and the stored files: what every top-level request does, succeeding or
  * failing, and what it keeps. */
module Documents {
  import opened Prelude

  type DocumentId = nat
  type VersionId = nat
  type Path = string

  // `stamp` is updated_at.
  datatype Document = Document(deleted: bool, current: Option<VersionId>, stamp: int)

  datatype Version = Version(document: DocumentId, number: nat, path: Path)

  datatype Library = Library(documents: map<DocumentId, Document>, versions: map<VersionId, Version>,
                             files: set<Path>, nextDocument: DocumentId, nextVersion: VersionId)

  datatype Refusal = Missing | Deleted | NotDeleted | NotAllowed | ProjectArchived | Invalid | StoreFailed | Conflict

  // What an upload meets: the checks before the file is read, the write itself, and the checks inside
  // the transaction, which may also fail for reasons of its own.
  datatype Upload = Upload(allowed: bool, stored: bool, path: Path, accepted: bool, now: int)

  /** Numbers of a document's versions. */
  function Numbers(versions: map<VersionId, Version>, d: DocumentId): set<nat> {
    set v <- versions | versions[v].document == d :: versions[v].number
  }

  lemma HasMax(s: set<nat>)
    requires s != {}
    ensures exists m :: m in s && forall x <- s :: x <= m
  {
    var x :| x in s;
    if s != {x} {
      HasMax(s - {x});
      var m :| m in s - {x} && forall y <- s - {x} :: y <= m;
      var top := if m < x then x else m;
      assert forall y <- s :: y == x || y in s - {x};
      assert top in s && forall y <- s :: y <= top;
    }
  }

  ghost function Max(s: set<nat>): (m: nat)
    requires s != {}
    ensures m in s && forall x <- s :: x <= m
  {
    HasMax(s);
    var m :| m in s && forall x <- s :: x <= m;
    m
  }

  /** The largest number in use, or 0. */
  ghost function Latest(versions: map<VersionId, Version>, d: DocumentId): nat {
    var numbers := Numbers(versions, d);
    if numbers == {} then 0 else Max(numbers)
  }

  // ---------------------------------------------------------------- requests

  function Create(w: Library, u: Upload): Result<Library, Refusal> {
    if !u.allowed then Err(NotAllowed)
    else if !u.stored then Err(StoreFailed)
    else if !u.accepted then Err(Invalid)
    else
      var d, v := w.nextDocument, w.nextVersion;
      Ok(w.(documents := w.documents[d := Document(false, Some(v), u.now)],
            versions := w.versions[v := Version(d, 1, u.path)],
            files := w.files + {u.path}, nextDocument := d + 1, nextVersion := v + 1))
  }

  /** The first check looks at the document as the caller read it; the row may be deleted, or gone, by
    * the time it is locked. */
  ghost function AddVersion(w: Library, d: DocumentId, readDeleted: bool, u: Upload): Result<Library, Refusal> {
    if readDeleted then Err(Deleted)
    else if !u.allowed then Err(NotAllowed)
    else if !u.stored then Err(StoreFailed)
    else if d !in w.documents then Err(Missing)
    else if w.documents[d].deleted then Err(Deleted)
    else if !u.accepted then Err(Invalid)
    else
      var v := w.nextVersion;
      Ok(w.(documents := w.documents[d := w.documents[d].(current := Some(v), stamp := u.now)],
            versions := w.versions[v := Version(d, Latest(w.versions, d) + 1, u.path)],
            files := w.files + {u.path}, nextVersion := v + 1))
  }

  /** A change of the row moves its stamp strictly forward, whatever the clock says. */
  function Touched(stamp: int, now: int): int {
    if now <= stamp then stamp + 1 else now
  }

  /** `writable`: the project is not archived. `allowed`: everything checked after the stamp. */
  function SetDeleted(w: Library, d: DocumentId, deleted: bool, writable: bool, expected: int, allowed: bool, now: int):
      Result<Library, Refusal> {
    if d !in w.documents then Err(Missing)
    else
      var row := w.documents[d];
      if row.deleted == deleted then Err(if deleted then Deleted else NotDeleted)
      else if !writable then Err(ProjectArchived)
      else if row.stamp != expected then Err(Conflict)
      else if !allowed then Err(NotAllowed)
      else Ok(w.(documents := w.documents[d := row.(deleted := deleted, stamp := Touched(row.stamp, now))]))
  }

  /** Changes of title, description, access level or folder. */
  function Edit(w: Library, d: DocumentId, writable: bool, expected: int, allowed: bool, now: int): Result<Library, Refusal> {
    if d !in w.documents then Err(Missing)
    else
      var row := w.documents[d];
      if row.deleted then Err(Deleted)
      else if !writable then Err(ProjectArchived)
      else if row.stamp != expected then Err(Conflict)
      else if !allowed then Err(NotAllowed)
      else Ok(w.(documents := w.documents[d := row.(stamp := Touched(row.stamp, now))]))
  }

  function VersionsOf(versions: map<VersionId, Version>, d: DocumentId): set<VersionId> {
    set v <- versions | versions[v].document == d
  }

  function PathsOf(versions: map<VersionId, Version>, ids: set<VersionId>): set<Path> {
    set v <- ids | v in versions :: versions[v].path
  }

  function Purge(w: Library, d: DocumentId, expected: int, allowed: bool): Result<Library, Refusal> {
    if d !in w.documents then Err(Missing)
    else
      var row := w.documents[d];
      if row.stamp != expected then Err(Conflict)
      else if !allowed then Err(NotAllowed)
      else if !row.deleted then Err(NotDeleted)
      else
        var gone := VersionsOf(w.versions, d);
        Ok(w.(documents := w.documents - {d}, versions := w.versions - gone,
              files := w.files - PathsOf(w.versions, gone)))
  }

  datatype Step =
    | DoCreate(upload: Upload)
    | DoAddVersion(document: DocumentId, readDeleted: bool, upload: Upload)
    | DoSetDeleted(document: DocumentId, deleted: bool, writable: bool, expected: int, allowed: bool, now: int)
    | DoEdit(document: DocumentId, writable: bool, expected: int, allowed: bool, now: int)
    | DoPurge(document: DocumentId, expected: int, allowed: bool)

  ghost function Serve(w: Library, s: Step): Result<Library, Refusal> {
    match s
    case DoCreate(u) => Create(w, u)
    case DoAddVersion(d, readDeleted, u) => AddVersion(w, d, readDeleted, u)
    case DoSetDeleted(d, deleted, writable, expected, allowed, now) =>
      SetDeleted(w, d, deleted, writable, expected, allowed, now)
    case DoEdit(d, writable, expected, allowed, now) => Edit(w, d, writable, expected, allowed, now)
    case DoPurge(d, expected, allowed) => Purge(w, d, expected, allowed)
  }

  ghost function Next(w: Library, s: Step): Library {
    var r := Serve(w, s);
    if r.Ok? then r.value else w
  }

  ghost function Run(w: Library, steps: seq<Step>): Library
    decreases |steps|
  {
    if steps == [] then w else Run(Next(w, steps[0]), steps[1..])
  }

  /** The generated name of a stored file is not in use. */
  predicate NamesFresh(w: Library, s: Step) {
    (s.DoCreate? || s.DoAddVersion?) ==> s.upload.path !in w.files
  }

  ghost predicate FreshNames(w: Library, steps: seq<Step>)
    decreases |steps|
  {
    steps == [] || (NamesFresh(w, steps[0]) && FreshNames(Next(w, steps[0]), steps[1..]))
  }

  // ---------------------------------------------------------------- what holds throughout

  function UpTo(n: nat): (r: set<nat>)
    ensures forall k :: k in r <==> 1 <= k <= n
  {
    if n == 0 then {} else UpTo(n - 1) + {n}
  }

  /** The versions of d are numbered 1..n without gaps or repeats, and number n is current. */
  ghost predicate Numbered(w: Library, d: DocumentId, n: nat)
    requires d in w.documents
  {
    && Numbers(w.versions, d) == UpTo(n)
    && w.documents[d].current.Some? && w.documents[d].current.value in w.versions
    && w.versions[w.documents[d].current.value] == Version(d, n, w.versions[w.documents[d].current.value].path)
  }

  ghost predicate HasVersions(w: Library, d: DocumentId)
    requires d in w.documents
  {
    exists n :: n > 0 && Numbered(w, d, n)
  }

  predicate EachNumberOnce(versions: map<VersionId, Version>) {
    forall u, v | u in versions && v in versions ::
      versions[u].document == versions[v].document && versions[u].number == versions[v].number ==> u == v
  }

  predicate Identified(w: Library) {
    && (forall d <- w.documents :: d < w.nextDocument)
    && (forall v <- w.versions :: v < w.nextVersion && w.versions[v].document in w.documents)
  }

  ghost predicate Orderly(w: Library) {
    Identified(w) && EachNumberOnce(w.versions) && forall d <- w.documents :: HasVersions(w, d)
  }

  /** Stored files and version rows match one to one. */
  ghost predicate Stored(w: Library) {
    && w.files == PathsOf(w.versions, w.versions.Keys)
    && forall u, v :: u in w.versions && v in w.versions && w.versions[u].path == w.versions[v].path ==> u == v
  }

  lemma NumbersAfterAdd(versions: map<VersionId, Version>, v: VersionId, row: Version, d: DocumentId)
    requires v !in versions
    ensures Numbers(versions[v := row], d)
            == if row.document == d then Numbers(versions, d) + {row.number} else Numbers(versions, d)
  {
    var after := versions[v := row];
    forall k ensures k in Numbers(after, d) <==> k in Numbers(versions, d) || (row.document == d && k == row.number) {
      if k in Numbers(versions, d) {
        var u :| u in versions && versions[u].document == d && versions[u].number == k;
        assert after[u] == versions[u];
      }
      if row.document == d && k == row.number {
        assert after[v] == row;
      }
    }
  }

  lemma MaxOfRange(n: nat)
    requires n > 0
    ensures UpTo(n) != {} && Max(UpTo(n)) == n
  {
    assert n in UpTo(n);
  }

  lemma AddedIsNumbered(w: Library, d: DocumentId, n: nat, path: Path, stamp: int)
    requires d in w.documents && n > 0 && Numbered(w, d, n) && w.nextVersion !in w.versions
    ensures Latest(w.versions, d) == n
    ensures var v := w.nextVersion;
            Numbered(w.(documents := w.documents[d := w.documents[d].(current := Some(v), stamp := stamp)],
                        versions := w.versions[v := Version(d, n + 1, path)]), d, n + 1)
  {
    MaxOfRange(n);
    assert 1 in Numbers(w.versions, d);
    NumbersAfterAdd(w.versions, w.nextVersion, Version(d, n + 1, path), d);
    assert UpTo(n + 1) == UpTo(n) + {n + 1};
  }

  /** Rows of another document do not matter to d. */
  lemma OtherStaysNumbered(w: Library, x: Library, d: DocumentId, n: nat)
    requires d in w.documents && Numbered(w, d, n) && d in x.documents && x.documents[d].current == w.documents[d].current
    requires forall v <- w.versions :: w.versions[v].document == d ==> v in x.versions && x.versions[v] == w.versions[v]
    requires forall v <- x.versions :: x.versions[v].document == d ==> v in w.versions && w.versions[v].document == d
    ensures Numbered(x, d, n)
  {
    forall k ensures k in Numbers(x.versions, d) <==> k in Numbers(w.versions, d) {
      if k in Numbers(w.versions, d) {
        var v :| v in w.versions && w.versions[v].document == d && w.versions[v].number == k;
        assert x.versions[v] == w.versions[v];
      }
      if k in Numbers(x.versions, d) {
        var v :| v in x.versions && x.versions[v].document == d && x.versions[v].number == k;
        assert x.versions[v] == w.versions[v];
      }
    }
  }

  lemma StillOnce(versions: map<VersionId, Version>, v: VersionId, row: Version)
    requires EachNumberOnce(versions) && v !in versions && row.number !in Numbers(versions, row.document)
    ensures EachNumberOnce(versions[v := row])
  {
    forall u | u in versions && versions[u].document == row.document ensures versions[u].number != row.number {
      assert versions[u].number in Numbers(versions, row.document);
    }
  }

  lemma OthersKeepVersions(w: Library, x: Library, d: DocumentId)
    requires d in w.documents && HasVersions(w, d) && d in x.documents && x.documents[d].current == w.documents[d].current
    requires forall v <- w.versions :: w.versions[v].document == d ==> v in x.versions && x.versions[v] == w.versions[v]
    requires forall v <- x.versions :: x.versions[v].document == d ==> v in w.versions && w.versions[v].document == d
    ensures HasVersions(x, d)
  {
    var n :| n > 0 && Numbered(w, d, n);
    OtherStaysNumbered(w, x, d, n);
  }

  lemma CreateNumbers(w: Library, u: Upload)
    requires Identified(w) && EachNumberOnce(w.versions) && Create(w, u).Ok?
    ensures var x := Create(w, u).value;
            w.nextDocument in x.documents && HasVersions(x, w.nextDocument) && EachNumberOnce(x.versions)
  {
    var x := Create(w, u).value;
    var d, v := w.nextDocument, w.nextVersion;
    NumbersAfterAdd(w.versions, v, Version(d, 1, u.path), d);
    assert Numbers(w.versions, d) == {};
    assert UpTo(1) == {1};
    assert Numbered(x, d, 1);
    StillOnce(w.versions, v, Version(d, 1, u.path));
  }

  lemma CreateIsOrderly(w: Library, u: Upload)
    requires Orderly(w) && Create(w, u).Ok?
    ensures Orderly(Create(w, u).value)
  {
    CreateNumbers(w, u);
    var x := Create(w, u).value;
    forall e | e in w.documents ensures HasVersions(x, e) {
      OthersKeepVersions(w, x, e);
    }
  }

  lemma AddNumbers(w: Library, d: DocumentId, readDeleted: bool, u: Upload)
    requires Identified(w) && EachNumberOnce(w.versions) && AddVersion(w, d, readDeleted, u).Ok? && HasVersions(w, d)
    ensures var x := AddVersion(w, d, readDeleted, u).value; HasVersions(x, d) && EachNumberOnce(x.versions)
  {
    var x := AddVersion(w, d, readDeleted, u).value;
    var m :| m > 0 && Numbered(w, d, m);
    AddedIsNumbered(w, d, m, u.path, u.now);
    OtherStaysNumbered(w.(documents := x.documents, versions := x.versions), x, d, m + 1);
    StillOnce(w.versions, w.nextVersion, Version(d, m + 1, u.path));
  }

  lemma AddKeepsOthers(w: Library, d: DocumentId, readDeleted: bool, u: Upload, e: DocumentId)
    requires Identified(w) && AddVersion(w, d, readDeleted, u).Ok? && e in w.documents && e != d && HasVersions(w, e)
    ensures HasVersions(AddVersion(w, d, readDeleted, u).value, e)
  {
    OthersKeepVersions(w, AddVersion(w, d, readDeleted, u).value, e);
  }

  lemma AddIsIdentified(w: Library, d: DocumentId, readDeleted: bool, u: Upload)
    requires Identified(w) && AddVersion(w, d, readDeleted, u).Ok?
    ensures var x := AddVersion(w, d, readDeleted, u).value; Identified(x) && x.documents.Keys == w.documents.Keys
  {
  }

  lemma AddIsOrderly(w: Library, d: DocumentId, readDeleted: bool, u: Upload)
    requires Orderly(w) && AddVersion(w, d, readDeleted, u).Ok?
    ensures Orderly(AddVersion(w, d, readDeleted, u).value)
  {
    AddNumbers(w, d, readDeleted, u);
    AddIsIdentified(w, d, readDeleted, u);
    var x := AddVersion(w, d, readDeleted, u).value;
    forall e | e in w.documents ensures HasVersions(x, e) {
      if e != d {
        AddKeepsOthers(w, d, readDeleted, u, e);
      }
    }
  }

  lemma PurgeIsOrderly(w: Library, d: DocumentId, expected: int, allowed: bool)
    requires Orderly(w) && Purge(w, d, expected, allowed).Ok?
    ensures Orderly(Purge(w, d, expected, allowed).value)
  {
    var x := Purge(w, d, expected, allowed).value;
    forall e | e in x.documents ensures HasVersions(x, e) {
      OthersKeepVersions(w, x, e);
    }
  }

  lemma RowChangeIsOrderly(w: Library, d: DocumentId, row: Document)
    requires Orderly(w) && d in w.documents && row.current == w.documents[d].current
    ensures Orderly(w.(documents := w.documents[d := row]))
  {
    var x := w.(documents := w.documents[d := row]);
    forall e | e in x.documents ensures HasVersions(x, e) {
      OthersKeepVersions(w, x, e);
    }
  }

  lemma StepIsOrderly(w: Library, s: Step)
    requires Orderly(w)
    ensures Orderly(Next(w, s))
  {
    if Serve(w, s).Ok? {
      match s
      case DoCreate(u) => CreateIsOrderly(w, u);
      case DoAddVersion(d, readDeleted, u) => AddIsOrderly(w, d, readDeleted, u);
      case DoSetDeleted(d, deleted, writable, expected, allowed, now) => RowChangeIsOrderly(w, d, Next(w, s).documents[d]);
      case DoEdit(d, writable, expected, allowed, now) => RowChangeIsOrderly(w, d, Next(w, s).documents[d]);
      case DoPurge(d, expected, allowed) => PurgeIsOrderly(w, d, expected, allowed);
    }
  }

  lemma AddingStores(w: Library, v: VersionId, row: Version)
    requires Stored(w) && v !in w.versions && row.path !in w.files
    ensures var versions := w.versions[v := row];
            && PathsOf(versions, versions.Keys) == w.files + {row.path}
            && forall x, y :: x in versions && y in versions && versions[x].path == versions[y].path ==> x == y
  {
    var versions := w.versions[v := row];
    forall p ensures p in PathsOf(versions, versions.Keys) <==> p in w.files || p == row.path {
      if p in w.files {
        var u :| u in w.versions && w.versions[u].path == p;
        assert versions[u].path == p;
      }
      if p == row.path {
        assert versions[v].path == p;
      }
    }
    forall u | u in w.versions ensures w.versions[u].path in w.files {
      assert w.versions[u].path in PathsOf(w.versions, w.versions.Keys);
    }
  }

  lemma PurgeStores(w: Library, gone: set<VersionId>)
    requires Stored(w) && gone <= w.versions.Keys
    ensures PathsOf(w.versions - gone, (w.versions - gone).Keys) == w.files - PathsOf(w.versions, gone)
  {
    var left := w.versions - gone;
    forall p ensures p in PathsOf(left, left.Keys) <==> p in w.files - PathsOf(w.versions, gone) {
      if p in PathsOf(left, left.Keys) {
        var v :| v in left && left[v].path == p;
        assert w.versions[v].path == p;
      }
      if p in w.files - PathsOf(w.versions, gone) {
        var v :| v in w.versions && w.versions[v].path == p;
        assert v in left && left[v].path == p;
      }
    }
  }

  lemma CreateStores(w: Library, u: Upload)
    requires w.nextVersion !in w.versions && Stored(w) && u.path !in w.files && Create(w, u).Ok?
    ensures Stored(Create(w, u).value)
  {
    AddingStores(w, w.nextVersion, Version(w.nextDocument, 1, u.path));
  }

  lemma AddStores(w: Library, d: DocumentId, readDeleted: bool, u: Upload)
    requires w.nextVersion !in w.versions && Stored(w) && u.path !in w.files && AddVersion(w, d, readDeleted, u).Ok?
    ensures Stored(AddVersion(w, d, readDeleted, u).value)
  {
    AddingStores(w, w.nextVersion, Version(d, Latest(w.versions, d) + 1, u.path));
  }

  lemma StepStores(w: Library, s: Step)
    requires Orderly(w) && Stored(w) && NamesFresh(w, s)
    ensures Stored(Next(w, s))
  {
    if Serve(w, s).Ok? {
      match s
      case DoCreate(u) => CreateStores(w, u);
      case DoAddVersion(d, readDeleted, u) => AddStores(w, d, readDeleted, u);
      case DoPurge(d, expected, allowed) => PurgeStores(w, VersionsOf(w.versions, d));
      case _ =>
    }
  }

  /** Over any run of top-level requests, each document's versions are exactly 1..n with version n
    * current, and the stored files are exactly the paths of the versions, each used once. */
  lemma {:induction false} RunConserves(w: Library, steps: seq<Step>)
    requires Orderly(w) && Stored(w) && FreshNames(w, steps)
    ensures Orderly(Run(w, steps)) && Stored(Run(w, steps))
    decreases |steps|
  {
    if steps != [] {
      StepIsOrderly(w, steps[0]);
      StepStores(w, steps[0]);
      RunConserves(Next(w, steps[0]), steps[1..]);
    }
  }

  lemma StepIsIdentified(w: Library, s: Step)
    requires Identified(w)
    ensures var x := Next(w, s);
            && Identified(x) && w.nextDocument <= x.nextDocument && w.nextVersion <= x.nextVersion
            && (forall v <- w.versions :: v in x.versions <==> w.versions[v].document in x.documents)
            && (forall v <- w.versions :: v in x.versions ==> x.versions[v] == w.versions[v])
            && (forall v <- x.versions :: v < w.nextVersion ==> v in w.versions)
            && (forall d <- x.documents :: d < w.nextDocument ==> d in w.documents)
  {
  }

  /** A stored version never changes and stays as long as its document. */
  lemma {:induction false} VersionsAreImmutable(w: Library, steps: seq<Step>, v: VersionId)
    requires Identified(w) && v in w.versions
    ensures v in Run(w, steps).versions <==> w.versions[v].document in Run(w, steps).documents
    ensures v in Run(w, steps).versions ==> Run(w, steps).versions[v] == w.versions[v]
    decreases |steps|
  {
    if steps != [] {
      StepIsIdentified(w, steps[0]);
      var next := Next(w, steps[0]);
      if v in next.versions {
        VersionsAreImmutable(next, steps[1..], v);
      } else {
        GoneForGood(next, steps[1..], v, w.versions[v].document);
      }
    }
  }

  lemma {:induction false} GoneForGood(w: Library, steps: seq<Step>, v: VersionId, d: DocumentId)
    requires Identified(w) && v !in w.versions && v < w.nextVersion && d !in w.documents && d < w.nextDocument
    ensures v !in Run(w, steps).versions && d !in Run(w, steps).documents
    decreases |steps|
  {
    if steps != [] {
      StepIsIdentified(w, steps[0]);
      GoneForGood(Next(w, steps[0]), steps[1..], v, d);
    }
  }

  // ---------------------------------------------------------------- edits against a known stamp

  predicate ChangesRow(s: Step, d: DocumentId, expected: int) {
    (s.DoSetDeleted? || s.DoEdit? || s.DoPurge?) && s.document == d && s.expected == expected
  }

  /** The step adds a version of d. */
  predicate Adds(w: Library, s: Step, d: DocumentId) {
    s.DoAddVersion? && s.document == d && !s.readDeleted && s.upload.allowed && s.upload.stored && s.upload.accepted
    && d in w.documents && !w.documents[d].deleted
  }

  /** Every version of d added along the run reads the clock above the bound. */
  ghost predicate ReadingsAbove(w: Library, steps: seq<Step>, d: DocumentId, bound: int)
    decreases |steps|
  {
    steps == [] || ((Adds(w, steps[0], d) ==> steps[0].upload.now > bound)
                    && ReadingsAbove(Next(w, steps[0]), steps[1..], d, bound))
  }

  /** What the change has to wait for after a version is added: a deleted document, or nothing. */
  function Delay(s: Step): nat {
    if s.DoPurge? || (s.DoSetDeleted? && !s.deleted) then 1 else 0
  }

  /** The stamp of d, and of a deleted d all the more. */
  ghost predicate Beyond(w: Library, d: DocumentId, bound: int, delay: nat) {
    d < w.nextDocument
    && (d in w.documents ==> w.documents[d].stamp > bound + if w.documents[d].deleted then delay else 0)
  }

  lemma StepStaysBeyond(w: Library, s: Step, d: DocumentId, bound: int, delay: nat)
    requires Beyond(w, d, bound, delay) && delay <= 1 && (Adds(w, s, d) ==> s.upload.now > bound)
    ensures Beyond(Next(w, s), d, bound, delay)
  {
  }

  lemma {:induction false} StaysBeyond(w: Library, steps: seq<Step>, d: DocumentId, bound: int, delay: nat)
    requires Beyond(w, d, bound, delay) && delay <= 1 && ReadingsAbove(w, steps, d, bound)
    ensures Beyond(Run(w, steps), d, bound, delay)
    decreases |steps|
  {
    if steps != [] {
      StepStaysBeyond(w, steps[0], d, bound, delay);
      StaysBeyond(Next(w, steps[0]), steps[1..], d, bound, delay);
    }
  }

  /** Of two changes that expect the same stamp at most one succeeds, whatever happens in between, as
    * long as every version added to this document in between reads the clock above that stamp (a change
    * that needs the document deleted: not below it). */
  lemma ChangesDoNotBothSucceed(w: Library, first: Step, between: seq<Step>, second: Step, d: DocumentId, expected: int)
    requires Identified(w) && ChangesRow(first, d, expected) && ChangesRow(second, d, expected)
    requires Serve(w, first).Ok? && ReadingsAbove(Next(w, first), between, d, expected - Delay(second))
    ensures Serve(Run(Next(w, first), between), second).Err?
  {
    StaysBeyond(Next(w, first), between, d, expected - Delay(second), Delay(second));
  }

  // ---------------------------------------------------------------- and exactly then

  lemma {:induction false} RunOver(w: Library, first: seq<Step>, second: seq<Step>)
    ensures Run(w, first + second) == Run(Run(w, first), second)
    decreases |first|
  {
    if first == [] {
      assert first + second == second;
    } else {
      assert (first + second)[1..] == first[1..] + second;
      RunOver(Next(w, first[0]), first[1..], second);
    }
  }

  predicate AddsNothing(steps: seq<Step>) {
    forall i :: 0 <= i < |steps| ==> !steps[i].DoAddVersion?
  }

  lemma {:induction false} ReadingsOfPrefix(w: Library, steps: seq<Step>, k: nat, more: seq<Step>, d: DocumentId, bound: int)
    requires k <= |steps| && AddsNothing(more) && ReadingsAbove(w, steps, d, bound)
    ensures ReadingsAbove(w, steps[..k] + more, d, bound)
    decreases k, |more|
  {
    var all := steps[..k] + more;
    if k > 0 {
      assert all[0] == steps[0] && all[1..] == steps[1..][..k - 1] + more;
      ReadingsOfPrefix(Next(w, steps[0]), steps[1..], k - 1, more, d, bound);
    } else if more != [] {
      assert all == more;
      var next := Next(w, more[0]);
      assert AddsNothing(more[1..]) && [][..0] + more[1..] == more[1..];
      ReadingsOfPrefix(next, [], 0, more[1..], d, bound);
    } else {
      assert all == [];
    }
  }

  /** The first version of d that reads the clock at the bound or below. */
  lemma {:induction false} LowReading(w: Library, steps: seq<Step>, d: DocumentId, bound: int) returns (j: nat)
    requires !ReadingsAbove(w, steps, d, bound)
    ensures j < |steps| && Adds(Run(w, steps[..j]), steps[j], d) && steps[j].upload.now <= bound
    decreases |steps|
  {
    if Adds(w, steps[0], d) && steps[0].upload.now <= bound {
      assert steps[..0] == [];
      return 0;
    }
    j := LowReading(Next(w, steps[0]), steps[1..], d, bound);
    assert steps[..j + 1] == [steps[0]] + steps[1..][..j];
    assert steps[..j + 1][1..] == steps[1..][..j];
    j := j + 1;
  }

  /** Whoever may make the change at all. */
  predicate Permitted(s: Step) {
    match s
    case DoSetDeleted(_, _, writable, _, allowed, _) => writable && allowed
    case DoEdit(_, writable, _, allowed, _) => writable && allowed
    case DoPurge(_, _, allowed) => allowed
    case _ => false
  }

  /** From a live document whose stamp is low enough, ordinary changes lead to the expected stamp. */
  lemma ClimbTo(w: Library, second: Step, d: DocumentId, expected: int) returns (more: seq<Step>)
    requires d in w.documents && !w.documents[d].deleted && w.documents[d].stamp + Delay(second) <= expected
    requires ChangesRow(second, d, expected) && Permitted(second)
    ensures AddsNothing(more) && Serve(Run(w, more), second).Ok?
  {
    var stamp := w.documents[d].stamp;
    if Delay(second) == 0 && stamp == expected {
      return [];
    }
    var climb := if Delay(second) == 0 then DoEdit(d, true, stamp, true, expected)
                 else DoSetDeleted(d, true, true, stamp, true, expected);
    more := [climb];
    assert more[1..] == [];
    assert Run(w, more) == Next(w, climb);
    assert Next(w, climb).documents[d].stamp == expected;
  }

  /** The second change can succeed somewhere: after some of the steps in between, and then possibly
    * further steps that add no version. */
  ghost predicate CanSucceed(w: Library, between: seq<Step>, second: Step) {
    exists k: nat, more: seq<Step> ::
      k <= |between| && AddsNothing(more) && Serve(Run(w, between[..k] + more), second).Ok?
  }

  /** The condition is exact: once the first change has succeeded, the second can succeed at some point
    * of the run, or from there without another version being added, if and only if a version of this
    * document added on the way reads the clock at the expected stamp or below (below it, for a change
    * that needs the document deleted). */
  lemma SecondSucceedsIffClockBehind(w: Library, first: Step, between: seq<Step>, second: Step, d: DocumentId, expected: int)
    requires Identified(w) && ChangesRow(first, d, expected) && ChangesRow(second, d, expected)
    requires Serve(w, first).Ok? && Permitted(second)
    ensures CanSucceed(Next(w, first), between, second)
            <==> !ReadingsAbove(Next(w, first), between, d, expected - Delay(second))
  {
    var changed := Next(w, first);
    var bound := expected - Delay(second);
    if ReadingsAbove(changed, between, d, bound) {
      forall k: nat, more: seq<Step> | k <= |between| && AddsNothing(more)
        ensures Serve(Run(changed, between[..k] + more), second).Err? {
        ReadingsOfPrefix(changed, between, k, more, d, bound);
        ChangesDoNotBothSucceed(w, first, between[..k] + more, second, d, expected);
      }
    } else {
      var j := LowReading(changed, between, d, bound);
      var before := Run(changed, between[..j]);
      var added := Next(before, between[j]);
      assert between[..j + 1] == between[..j] + [between[j]];
      RunOver(changed, between[..j], [between[j]]);
      assert [between[j]][1..] == [];
      assert Run(changed, between[..j + 1]) == added;
      var more := ClimbTo(added, second, d, expected);
      RunOver(changed, between[..j + 1], more);
    }
  }

  /** The shortest such run: a change, a version that reads the clock at the old stamp, and the same change
    * again. */
  lemma ClockBehindLetsBothSucceed(w: Library, d: DocumentId, path: Path)
    requires d in w.documents && !w.documents[d].deleted
    ensures var expected := w.documents[d].stamp;
            var edit := DoEdit(d, true, expected, true, expected);
            var add := DoAddVersion(d, false, Upload(true, true, path, true, expected));
            Serve(w, edit).Ok? && Serve(Run(Next(w, edit), [add]), edit).Ok?
  {
    var expected := w.documents[d].stamp;
    var edit := DoEdit(d, true, expected, true, expected);
    var add := DoAddVersion(d, false, Upload(true, true, path, true, expected));
    var edited := Next(w, edit);
    assert [add][1..] == [];
    assert Run(edited, [add]) == Run(Next(edited, add), []);
  }

  // ---------------------------------------------------------------- the empty library

  const EMPTY := Library(map[], map[], {}, 0, 0)

  /** Every run from the empty library conserves. */
  lemma EmptyConserves(steps: seq<Step>)
    requires FreshNames(EMPTY, steps)
    ensures Orderly(Run(EMPTY, steps)) && Stored(Run(EMPTY, steps))
  {
    assert PathsOf(EMPTY.versions, EMPTY.versions.Keys) == {};
    RunConserves(EMPTY, steps);
  }
}
