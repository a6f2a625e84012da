/** Backup archives: what is written, what is accepted, and exactly when a written one is accepted. */
module Backup {
  import opened Prelude
  import opened StoragePaths

  type Bytes = seq<bv8>
  type Parts = seq<string>

  // What a path of the file tree is. A link counts as a file when it leads to one, and a file that
  // has been stored under another name already is stored as a link to that name.
  datatype Node =
    | File(content: Bytes, storedBefore: bool)
    | LinkToFile(content: Bytes)
    | Directory
    | OtherNode

  datatype Found = Found(parts: Parts, node: Node)

  // Members that are no regular files still yield something when they are read, if they are links
  // that lead to one.
  datatype Member =
    | Regular(name: string, content: Bytes)
    | Other(name: string, leadsTo: Option<Bytes>)

  datatype Entry = Entry(path: string, sha256: string, size: int)

  datatype Manifest = Manifest(version: int, dumpSha256: string, dumpSize: int,
                               entries: Option<seq<Entry>>, fileCount: int, filesSize: int)

  const ARCHIVE_VERSION := 1

  // ---------------------------------------------------------------- the digest and the manifest text

  datatype Codec = Codec(hash: Bytes -> string, render: Manifest -> Bytes, parse: Bytes -> Option<Manifest>)

  ghost predicate Faithful(k: Codec) {
    && (forall a, b :: k.hash(a) == k.hash(b) ==> a == b)
    && (forall a :: k.hash(a) != "")
    && (forall m :: k.parse(k.render(m)) == Some(m))
  }

  // ---------------------------------------------------------------- what is in a file tree

  predicate IsName(part: string) {
    part != "" && part != "." && part != ".." && '/' !in part
  }

  predicate IsPath(parts: Parts) {
    |parts| > 0 && forall i :: 0 <= i < |parts| ==> IsName(parts[i])
  }

  predicate Included(f: Found) {
    |f.parts| > 0 && f.parts[0] != ".tmp"
  }

  /** What path.is_file() says. */
  predicate IsFile(n: Node) {
    n.File? || n.LinkToFile?
  }

  predicate IsListing(listing: seq<Found>) {
    && (forall i :: 0 <= i < |listing| ==> IsPath(listing[i].parts))
    && forall i, j :: 0 <= i < j < |listing| ==> listing[i].parts != listing[j].parts
  }

  /** Everything in the tree that is a file. */
  ghost predicate HoldsFile(listing: seq<Found>, parts: Parts, content: Bytes) {
    exists i :: 0 <= i < |listing| && Included(listing[i]) && listing[i].parts == parts
                && IsFile(listing[i].node) && listing[i].node.content == content
  }

  /** Everything in the tree that becomes a regular member. */
  ghost predicate StoresFile(listing: seq<Found>, parts: Parts, content: Bytes) {
    exists i :: 0 <= i < |listing| && Included(listing[i]) && listing[i].parts == parts
                && listing[i].node == File(content, false)
  }

  function ArchiveName(path: string): string {
    "files/" + path
  }

  function Entries(k: Codec, listing: seq<Found>): seq<Entry>
    requires IsListing(listing)
  {
    if listing == [] then []
    else
      var n := |listing| - 1;
      var f := listing[n];
      var before := Entries(k, listing[..n]);
      if Included(f) && IsFile(f.node) then before + [Entry(Join(f.parts), k.hash(f.node.content), |f.node.content|)]
      else before
  }

  function MemberFor(f: Found, leadsTo: Option<Bytes>): Member
    requires IsPath(f.parts)
  {
    var name := ArchiveName(Join(f.parts));
    if f.node.File? && !f.node.storedBefore then Regular(name, f.node.content) else Other(name, leadsTo)
  }

  /** `leadsTo` says what following each link will give. */
  function FileMembers(listing: seq<Found>, leadsTo: Parts -> Option<Bytes>): seq<Member>
    requires IsListing(listing)
  {
    if listing == [] then []
    else
      var n := |listing| - 1;
      var before := FileMembers(listing[..n], leadsTo);
      if Included(listing[n]) then before + [MemberFor(listing[n], leadsTo(listing[n].parts))] else before
  }

  function TotalSize(entries: seq<Entry>): int {
    if entries == [] then 0 else TotalSize(entries[..|entries| - 1]) + entries[|entries| - 1].size
  }

  function BuildManifest(k: Codec, dump: Bytes, listing: seq<Found>): Manifest
    requires IsListing(listing)
  {
    var entries := Entries(k, listing);
    Manifest(ARCHIVE_VERSION, k.hash(dump), |dump|, Some(entries), |entries|, TotalSize(entries))
  }

  function WriteArchive(k: Codec, manifest: Manifest, dump: Bytes, listing: seq<Found>, leadsTo: Parts -> Option<Bytes>):
      seq<Member>
    requires IsListing(listing)
  {
    [Regular("manifest.json", k.render(manifest)), Regular("database.sql", dump), Other("files", None)]
    + FileMembers(listing, leadsTo)
  }

  // ---------------------------------------------------------------- reading an archive

  /** The last member of a name counts. */
  function MemberNamed(members: seq<Member>, name: string): (r: Option<Member>)
    ensures r.Some? ==> r.value in members && r.value.name == name
    ensures r == None ==> forall i :: 0 <= i < |members| ==> members[i].name != name
  {
    if members == [] then None
    else if members[|members| - 1].name == name then Some(members[|members| - 1])
    else MemberNamed(members[..|members| - 1], name)
  }

  function Read(members: seq<Member>, name: string): Option<Bytes> {
    match MemberNamed(members, name)
    case None => None
    case Some(Regular(_, content)) => Some(content)
    case Some(Other(_, leadsTo)) => leadsTo
  }

  predicate InFiles(name: string) {
    "files/" <= name
  }

  predicate IsFileMember(members: seq<Member>, name: string) {
    InFiles(name) && MemberNamed(members, name).Some? && MemberNamed(members, name).value.Regular?
  }

  predicate MemberMatches(k: Codec, members: seq<Member>, name: string, sha256: string, size: int) {
    var content := Read(members, name);
    content.Some? && sha256 != "" && k.hash(content.value) == sha256 && |content.value| == size
  }

  predicate PathAllowed(path: string) {
    path != "" && path[0] != '/' && forall i :: 0 <= i < |Split(path)| ==> Split(path)[i] != ".."
  }

  predicate EntryMatches(k: Codec, members: seq<Member>, e: Entry) {
    PathAllowed(e.path) && MemberMatches(k, members, ArchiveName(e.path), e.sha256, e.size)
  }

  predicate Lists(entries: seq<Entry>, name: string) {
    exists i :: 0 <= i < |entries| && ArchiveName(entries[i].path) == name
  }

  /** Regular members under files/ are the listed entries. */
  ghost predicate SameNames(members: seq<Member>, entries: seq<Entry>) {
    forall name :: IsFileMember(members, name) <==> Lists(entries, name)
  }

  ghost predicate ContentsMatch(k: Codec, members: seq<Member>, m: Manifest) {
    && MemberMatches(k, members, "database.sql", m.dumpSha256, m.dumpSize)
    && m.entries.Some?
    && (forall i :: 0 <= i < |m.entries.value| ==> EntryMatches(k, members, m.entries.value[i]))
    && SameNames(members, m.entries.value)
    && |m.entries.value| == m.fileCount && TotalSize(m.entries.value) == m.filesSize
  }

  predicate HasFilesRoot(members: seq<Member>) {
    exists i :: 0 <= i < |members| && (members[i].name == "files" || InFiles(members[i].name))
  }

  ghost predicate Accepted(k: Codec, members: seq<Member>) {
    && MemberNamed(members, "manifest.json").Some? && MemberNamed(members, "database.sql").Some?
    && Read(members, "manifest.json").Some?
    && k.parse(Read(members, "manifest.json").value).Some?
    && k.parse(Read(members, "manifest.json").value).value.version == ARCHIVE_VERSION
    && HasFilesRoot(members)
    && ContentsMatch(k, members, k.parse(Read(members, "manifest.json").value).value)
  }

  // ---------------------------------------------------------------- as it runs

  method FileStorageManifest(k: Codec, listing: seq<Found>) returns (entries: seq<Entry>)
    requires IsListing(listing)
    ensures entries == Entries(k, listing)
  {
    entries := [];
    for i := 0 to |listing|
      invariant entries == Entries(k, listing[..i])
    {
      var f := listing[i];
      assert listing[..i + 1][..i] == listing[..i] && listing[..i + 1][i] == f;
      if Included(f) && IsFile(f.node) {
        entries := entries + [Entry(Join(f.parts), k.hash(f.node.content), |f.node.content|)];
      }
    }
    assert listing[..|listing|] == listing;
  }

  method AddFilesRoot(listing: seq<Found>, leadsTo: Parts -> Option<Bytes>) returns (members: seq<Member>)
    requires IsListing(listing)
    ensures members == [Other("files", None)] + FileMembers(listing, leadsTo)
  {
    members := [Other("files", None)];
    for i := 0 to |listing|
      invariant members == [Other("files", None)] + FileMembers(listing[..i], leadsTo)
    {
      var f := listing[i];
      assert listing[..i + 1][..i] == listing[..i] && listing[..i + 1][i] == f;
      if Included(f) {
        members := members + [MemberFor(f, leadsTo(f.parts))];
      }
    }
    assert listing[..|listing|] == listing;
  }

  function Names(members: seq<Member>): set<string> {
    set i | 0 <= i < |members| :: members[i].name
  }

  method VerifyContents(k: Codec, members: seq<Member>, m: Manifest) returns (accepted: bool)
    ensures accepted <==> ContentsMatch(k, members, m)
  {
    if !MemberMatches(k, members, "database.sql", m.dumpSha256, m.dumpSize) || m.entries == None {
      return false;
    }
    var entries := m.entries.value;
    var expected: set<string> := {};
    var total := 0;
    for i := 0 to |entries|
      invariant forall j :: 0 <= j < i ==> EntryMatches(k, members, entries[j])
      invariant forall name :: name in expected <==> Lists(entries[..i], name)
      invariant total == TotalSize(entries[..i])
    {
      var e := entries[i];
      if !PathAllowed(e.path) || !MemberMatches(k, members, ArchiveName(e.path), e.sha256, e.size) {
        assert !EntryMatches(k, members, entries[i]);
        return false;
      }
      ListsMore(entries, i);
      assert entries[..i + 1][..i] == entries[..i] && entries[..i + 1][i] == e;
      expected := expected + {ArchiveName(e.path)};
      total := total + e.size;
    }
    assert entries[..|entries|] == entries;
    var actual := set name <- Names(members) | IsFileMember(members, name);
    forall name ensures name in actual <==> IsFileMember(members, name) {
      if IsFileMember(members, name) {
        var member := MemberNamed(members, name).value;
        var i :| 0 <= i < |members| && members[i] == member;
        assert members[i].name in Names(members);
      }
    }
    assert SameNames(members, entries) ==> actual == expected;
    if actual != expected {
      return false;
    }
    return |entries| == m.fileCount && total == m.filesSize;
  }

  /** `digest` is the archive file's own, `expected` may be empty. */
  method VerifyArchive(k: Codec, members: seq<Member>, digest: string, expected: string) returns (accepted: bool)
    ensures accepted <==> (expected == "" || digest == expected) && Accepted(k, members)
  {
    if expected != "" && digest != expected {
      return false;
    }
    if MemberNamed(members, "manifest.json") == None || MemberNamed(members, "database.sql") == None {
      return false;
    }
    var text := Read(members, "manifest.json");
    if text == None || k.parse(text.value) == None {
      return false;
    }
    var manifest := k.parse(text.value).value;
    if manifest.version != ARCHIVE_VERSION || !HasFilesRoot(members) {
      return false;
    }
    accepted := VerifyContents(k, members, manifest);
  }

  lemma ListsMore(entries: seq<Entry>, i: nat)
    requires i < |entries|
    ensures forall name :: Lists(entries[..i + 1], name) <==> Lists(entries[..i], name) || name == ArchiveName(entries[i].path)
  {
    forall name ensures Lists(entries[..i + 1], name) <==> Lists(entries[..i], name) || name == ArchiveName(entries[i].path) {
      if Lists(entries[..i], name) {
        var j :| 0 <= j < i && ArchiveName(entries[..i][j].path) == name;
        assert entries[..i + 1][j] == entries[j];
      }
      if name == ArchiveName(entries[i].path) {
        assert entries[..i + 1][i] == entries[i];
      }
      if Lists(entries[..i + 1], name) {
        var j :| 0 <= j < i + 1 && ArchiveName(entries[..i + 1][j].path) == name;
        assert j < i ==> entries[..i][j] == entries[j];
      }
    }
  }
}
