/** An accepted archive holds exactly the files its manifest lists; a written archive is accepted
  * exactly when the tree had not changed and no file was stored as a link. */
module BackupProof {
  import opened Prelude
  import opened StoragePaths
  import opened Backup

  /** The file member of a name, with its content. */
  predicate Carries(members: seq<Member>, name: string, content: Bytes) {
    InFiles(name) && MemberNamed(members, name) == Some(Regular(name, content))
  }

  /** Every entry of an accepted archive is a regular member with the listed digest and size. */
  lemma EntryIsCarried(k: Codec, members: seq<Member>, m: Manifest, i: nat)
    requires ContentsMatch(k, members, m) && i < |m.entries.value|
    ensures var e := m.entries.value[i];
            var name := ArchiveName(e.path);
            && Read(members, name).Some? && Carries(members, name, Read(members, name).value)
            && k.hash(Read(members, name).value) == e.sha256 && |Read(members, name).value| == e.size
  {
    var e := m.entries.value[i];
    assert EntryMatches(k, members, e);
    assert Lists(m.entries.value, ArchiveName(e.path));
    assert IsFileMember(members, ArchiveName(e.path));
  }

  /** Two archives accepted for one manifest carry the same files and the same dump: no file can be
    * added, dropped or altered without being noticed. */
  lemma AcceptedAgree(k: Codec, a: seq<Member>, b: seq<Member>, m: Manifest, name: string, content: Bytes)
    requires Faithful(k) && ContentsMatch(k, a, m) && ContentsMatch(k, b, m)
    ensures Carries(a, name, content) <==> Carries(b, name, content)
    ensures Read(a, "database.sql") == Read(b, "database.sql")
  {
    if Carries(a, name, content) {
      CarriedInBoth(k, a, b, m, name, content);
    }
    if Carries(b, name, content) {
      CarriedInBoth(k, b, a, m, name, content);
    }
  }

  lemma CarriedInBoth(k: Codec, a: seq<Member>, b: seq<Member>, m: Manifest, name: string, content: Bytes)
    requires Faithful(k) && ContentsMatch(k, a, m) && ContentsMatch(k, b, m) && Carries(a, name, content)
    ensures Carries(b, name, content)
  {
    assert IsFileMember(a, name);
    assert Lists(m.entries.value, name);
    var i :| 0 <= i < |m.entries.value| && ArchiveName(m.entries.value[i].path) == name;
    EntryIsCarried(k, a, m, i);
    EntryIsCarried(k, b, m, i);
  }

  // ---------------------------------------------------------------- names are one to one

  lemma NameDetermines(p: Parts, q: Parts)
    requires IsPath(p) && IsPath(q) && ArchiveName(Join(p)) == ArchiveName(Join(q))
    ensures p == q
  {
    assert ArchiveName(Join(p))[6..] == Join(p) && ArchiveName(Join(q))[6..] == Join(q);
    SplitUndoesJoin(p);
    SplitUndoesJoin(q);
  }

  lemma PathOfNames(parts: Parts)
    requires IsPath(parts)
    ensures PathAllowed(Join(parts))
  {
    SplitUndoesJoin(parts);
    assert IsName(parts[0]);
    var s := Join(parts);
    assert s[0] == parts[0][0] && parts[0][0] in parts[0];
  }

  // ---------------------------------------------------------------- members of a written archive

  /** Index of the included node at a path, if there is one. */
  predicate At(listing: seq<Found>, i: int, parts: Parts) {
    0 <= i < |listing| && Included(listing[i]) && listing[i].parts == parts
  }

  lemma {:induction false} FileMemberAt(listing: seq<Found>, leadsTo: Parts -> Option<Bytes>, i: nat)
    requires IsListing(listing) && i < |listing| && Included(listing[i])
    ensures MemberNamed(FileMembers(listing, leadsTo), ArchiveName(Join(listing[i].parts)))
            == Some(MemberFor(listing[i], leadsTo(listing[i].parts)))
    decreases |listing|
  {
    var n := |listing| - 1;
    var all := FileMembers(listing, leadsTo);
    var before := FileMembers(listing[..n], leadsTo);
    if Included(listing[n]) {
      assert all[..|all| - 1] == before;
    }
    if i < n {
      FileMemberAt(listing[..n], leadsTo, i);
      if Included(listing[n]) && ArchiveName(Join(listing[n].parts)) == ArchiveName(Join(listing[i].parts)) {
        NameDetermines(listing[n].parts, listing[i].parts);
      }
    }
  }

  lemma {:induction false} FileMemberFrom(listing: seq<Found>, leadsTo: Parts -> Option<Bytes>, name: string)
    requires IsListing(listing) && MemberNamed(FileMembers(listing, leadsTo), name).Some?
    ensures exists i :: 0 <= i < |listing| && Included(listing[i]) && ArchiveName(Join(listing[i].parts)) == name
    decreases |listing|
  {
    var n := |listing| - 1;
    var all := FileMembers(listing, leadsTo);
    if Included(listing[n]) {
      assert all[..|all| - 1] == FileMembers(listing[..n], leadsTo);
    }
    if !(Included(listing[n]) && ArchiveName(Join(listing[n].parts)) == name) {
      FileMemberFrom(listing[..n], leadsTo, name);
      var i :| 0 <= i < n && Included(listing[..n][i]) && ArchiveName(Join(listing[..n][i].parts)) == name;
      assert listing[i] == listing[..n][i];
    }
  }

  lemma {:induction false} NamedBehind(front: seq<Member>, back: seq<Member>, name: string)
    ensures MemberNamed(front + back, name) == if MemberNamed(back, name).Some? then MemberNamed(back, name)
                                               else MemberNamed(front, name)
    decreases |back|
  {
    var all := front + back;
    if back == [] {
      assert all == front;
    } else {
      assert all[..|all| - 1] == front + back[..|back| - 1];
      NamedBehind(front, back[..|back| - 1], name);
    }
  }

  lemma FixedNamesOutside()
    ensures !InFiles("manifest.json") && !InFiles("database.sql") && !InFiles("files")
  {
    assert "manifest.json"[0] == 'm' && "database.sql"[0] == 'd' && "files/"[0] == 'f';
  }

  lemma WrittenMembers(k: Codec, manifest: Manifest, dump: Bytes, listing: seq<Found>, leadsTo: Parts -> Option<Bytes>)
    requires IsListing(listing)
    ensures var members := WriteArchive(k, manifest, dump, listing, leadsTo);
            && Read(members, "manifest.json") == Some(k.render(manifest))
            && Read(members, "database.sql") == Some(dump)
            && MemberNamed(members, "manifest.json").Some? && MemberNamed(members, "database.sql").Some?
            && HasFilesRoot(members)
            && forall name :: InFiles(name) ==> MemberNamed(members, name) == MemberNamed(FileMembers(listing, leadsTo), name)
  {
    var front := [Regular("manifest.json", k.render(manifest)), Regular("database.sql", dump), Other("files", None)];
    var back := FileMembers(listing, leadsTo);
    var members := front + back;
    forall name ensures MemberNamed(members, name) == if MemberNamed(back, name).Some? then MemberNamed(back, name)
                                                      else MemberNamed(front, name) {
      NamedBehind(front, back, name);
    }
    forall name | MemberNamed(back, name).Some? ensures InFiles(name) {
      FileMemberFrom(listing, leadsTo, name);
    }
    assert front[..2] == [front[0], front[1]] && front[..2][..1] == [front[0]];
    assert members[2].name == "files";
    FixedNamesOutside();
    forall name | InFiles(name) ensures MemberNamed(front, name) == None {
      FrontIsFixed(front, name);
    }
  }

  lemma FrontIsFixed(front: seq<Member>, name: string)
    requires |front| == 3 && front[0].name == "manifest.json" && front[1].name == "database.sql" && front[2].name == "files"
    requires InFiles(name)
    ensures MemberNamed(front, name) == None
  {
    FixedNamesOutside();
  }

  /** The files an archive carries are the ones stored as regular members. */
  lemma CarriesStored(k: Codec, manifest: Manifest, dump: Bytes, listing: seq<Found>, leadsTo: Parts -> Option<Bytes>,
                      parts: Parts, content: Bytes)
    requires IsListing(listing) && IsPath(parts)
    ensures Carries(WriteArchive(k, manifest, dump, listing, leadsTo), ArchiveName(Join(parts)), content)
            <==> StoresFile(listing, parts, content)
  {
    var members := WriteArchive(k, manifest, dump, listing, leadsTo);
    var name := ArchiveName(Join(parts));
    WrittenMembers(k, manifest, dump, listing, leadsTo);
    assert InFiles(name);
    if Carries(members, name, content) {
      FileMemberFrom(listing, leadsTo, name);
      var i :| 0 <= i < |listing| && Included(listing[i]) && ArchiveName(Join(listing[i].parts)) == name;
      NameDetermines(listing[i].parts, parts);
      FileMemberAt(listing, leadsTo, i);
      assert listing[i].node == File(content, false);
    }
    if StoresFile(listing, parts, content) {
      var i :| 0 <= i < |listing| && Included(listing[i]) && listing[i].parts == parts && listing[i].node == File(content, false);
      FileMemberAt(listing, leadsTo, i);
    }
  }

  // ---------------------------------------------------------------- entries of a manifest

  predicate EntryOf(k: Codec, f: Found, e: Entry) {
    |f.parts| > 0 && Included(f) && IsFile(f.node) && e == Entry(Join(f.parts), k.hash(f.node.content), |f.node.content|)
  }

  lemma {:induction false} EntryFrom(k: Codec, listing: seq<Found>, j: nat)
    requires IsListing(listing) && j < |Entries(k, listing)|
    ensures exists i :: 0 <= i < |listing| && EntryOf(k, listing[i], Entries(k, listing)[j])
    decreases |listing|
  {
    var n := |listing| - 1;
    var before := Entries(k, listing[..n]);
    if j < |before| {
      EntryFrom(k, listing[..n], j);
      var i :| 0 <= i < n && EntryOf(k, listing[..n][i], before[j]);
      assert listing[i] == listing[..n][i];
    } else {
      assert EntryOf(k, listing[n], Entries(k, listing)[j]);
    }
  }

  lemma {:induction false} EntryFor(k: Codec, listing: seq<Found>, i: nat)
    requires IsListing(listing) && i < |listing| && Included(listing[i]) && IsFile(listing[i].node)
    ensures exists j :: 0 <= j < |Entries(k, listing)| && EntryOf(k, listing[i], Entries(k, listing)[j])
    decreases |listing|
  {
    var n := |listing| - 1;
    var all, before := Entries(k, listing), Entries(k, listing[..n]);
    if i < n {
      EntryFor(k, listing[..n], i);
      var j :| 0 <= j < |before| && EntryOf(k, listing[..n][i], before[j]);
      assert all[j] == before[j];
    } else {
      assert EntryOf(k, listing[i], all[|all| - 1]);
    }
  }

  // ---------------------------------------------------------------- when a written archive is accepted

  /** The archive stores, as regular members, exactly the files the manifest was made from. */
  ghost predicate SameFiles(listed: seq<Found>, stored: seq<Found>) {
    forall parts, content :: HoldsFile(listed, parts, content) <==> StoresFile(stored, parts, content)
  }

  /** A manifest made from one tree and an archive written from another are accepted together exactly
    * when dump and files are the same. */
  lemma AcceptedIffSame(k: Codec, dump: Bytes, listed: seq<Found>, dumped: Bytes, stored: seq<Found>,
                        leadsTo: Parts -> Option<Bytes>)
    requires Faithful(k) && IsListing(listed) && IsListing(stored)
    ensures Accepted(k, WriteArchive(k, BuildManifest(k, dump, listed), dumped, stored, leadsTo))
            <==> dump == dumped && SameFiles(listed, stored)
  {
    var m := BuildManifest(k, dump, listed);
    var members := WriteArchive(k, m, dumped, stored, leadsTo);
    WrittenMembers(k, m, dumped, stored, leadsTo);
    assert Accepted(k, members) <==> ContentsMatch(k, members, m);
    if ContentsMatch(k, members, m) {
      AcceptedHasSame(k, dump, listed, dumped, stored, leadsTo);
    }
    if dump == dumped && SameFiles(listed, stored) {
      SameIsAccepted(k, dump, listed, stored, leadsTo);
    }
  }

  lemma AcceptedHasSame(k: Codec, dump: Bytes, listed: seq<Found>, dumped: Bytes, stored: seq<Found>,
                        leadsTo: Parts -> Option<Bytes>)
    requires Faithful(k) && IsListing(listed) && IsListing(stored)
    requires var m := BuildManifest(k, dump, listed);
             ContentsMatch(k, WriteArchive(k, m, dumped, stored, leadsTo), m)
    ensures SameFiles(listed, stored)
  {
    var m := BuildManifest(k, dump, listed);
    var members := WriteArchive(k, m, dumped, stored, leadsTo);
    var entries := Entries(k, listed);
    forall parts, content ensures HoldsFile(listed, parts, content) <==> StoresFile(stored, parts, content) {
      if HoldsFile(listed, parts, content) {
        var i :| 0 <= i < |listed| && Included(listed[i]) && listed[i].parts == parts
                 && IsFile(listed[i].node) && listed[i].node.content == content;
        EntryFor(k, listed, i);
        var j :| 0 <= j < |entries| && EntryOf(k, listed[i], entries[j]);
        EntryIsCarried(k, members, m, j);
        CarriesStored(k, m, dumped, stored, leadsTo, parts, content);
      }
      if StoresFile(stored, parts, content) {
        CarriesStored(k, m, dumped, stored, leadsTo, parts, content);
        var name := ArchiveName(Join(parts));
        assert IsFileMember(members, name);
        var j :| 0 <= j < |entries| && ArchiveName(entries[j].path) == name;
        EntryIsCarried(k, members, m, j);
        EntryFrom(k, listed, j);
        var i :| 0 <= i < |listed| && EntryOf(k, listed[i], entries[j]);
        NameDetermines(listed[i].parts, parts);
      }
    }
  }

  lemma SameIsAccepted(k: Codec, dump: Bytes, listed: seq<Found>, stored: seq<Found>, leadsTo: Parts -> Option<Bytes>)
    requires Faithful(k) && IsListing(listed) && IsListing(stored) && SameFiles(listed, stored)
    ensures var m := BuildManifest(k, dump, listed);
            ContentsMatch(k, WriteArchive(k, m, dump, stored, leadsTo), m)
  {
    var m := BuildManifest(k, dump, listed);
    var members := WriteArchive(k, m, dump, stored, leadsTo);
    var entries := Entries(k, listed);
    WrittenMembers(k, m, dump, stored, leadsTo);
    forall j | 0 <= j < |entries|
      ensures EntryMatches(k, members, entries[j]) && IsFileMember(members, ArchiveName(entries[j].path)) {
      EntryFrom(k, listed, j);
      var i :| 0 <= i < |listed| && EntryOf(k, listed[i], entries[j]);
      var parts, content := listed[i].parts, listed[i].node.content;
      assert HoldsFile(listed, parts, content);
      CarriesStored(k, m, dump, stored, leadsTo, parts, content);
      PathOfNames(parts);
    }
    forall name | IsFileMember(members, name) ensures Lists(entries, name) {
      FileMemberFrom(stored, leadsTo, name);
      var i :| 0 <= i < |stored| && Included(stored[i]) && ArchiveName(Join(stored[i].parts)) == name;
      FileMemberAt(stored, leadsTo, i);
      var parts, content := stored[i].parts, stored[i].node.content;
      assert StoresFile(stored, parts, content);
      var n :| 0 <= n < |listed| && Included(listed[n]) && listed[n].parts == parts
               && IsFile(listed[n].node) && listed[n].node.content == content;
      EntryFor(k, listed, n);
    }
  }

  /** Building a backup from an unchanged tree verifies exactly when no file in it is stored as a link:
    * neither a symbolic link to a file nor a second name of one. */
  lemma UnchangedTreeVerifies(k: Codec, dump: Bytes, listing: seq<Found>, leadsTo: Parts -> Option<Bytes>)
    requires Faithful(k) && IsListing(listing)
    ensures Accepted(k, WriteArchive(k, BuildManifest(k, dump, listing), dump, listing, leadsTo))
            <==> forall i :: 0 <= i < |listing| && Included(listing[i]) && IsFile(listing[i].node) ==>
                   listing[i].node.File? && !listing[i].node.storedBefore
  {
    AcceptedIffSame(k, dump, listing, dump, listing, leadsTo);
    if SameFiles(listing, listing) {
      forall i | 0 <= i < |listing| && Included(listing[i]) && IsFile(listing[i].node)
        ensures listing[i].node.File? && !listing[i].node.storedBefore {
        var parts, content := listing[i].parts, listing[i].node.content;
        assert HoldsFile(listing, parts, content);
        var j :| 0 <= j < |listing| && Included(listing[j]) && listing[j].parts == parts && listing[j].node == File(content, false);
        assert i == j;
      }
    }
  }
}
