/** The assumptions about digests and manifest texts can be met: with contents as their own digest and numbers
  * written as tallies, every backup of a tree without links verifies. */
module BackupWitness {
  import opened Prelude
  import opened Backup
  import opened BackupProof

  // ---------------------------------------------------------------- numbers as bytes

  function Tally(n: nat): Bytes {
    if n == 0 then [0] else [1] + Tally(n - 1)
  }

  lemma {:induction false} TallyApart(a: nat, b: nat, r: Bytes, s: Bytes)
    requires Tally(a) + r == Tally(b) + s
    ensures a == b && r == s
  {
    var x, y := Tally(a) + r, Tally(b) + s;
    assert x[0] == Tally(a)[0] && y[0] == Tally(b)[0];
    if a == 0 {
      assert x[1..] == r && y[1..] == s;
    } else {
      assert x[1..] == Tally(a - 1) + r && y[1..] == Tally(b - 1) + s;
      TallyApart(a - 1, b - 1, r, s);
    }
  }

  function Sign(n: int): bv8 {
    if n < 0 then 1 else 0
  }

  function Size(n: int): nat {
    if n < 0 then -n else n
  }

  function Number(n: int): Bytes {
    [Sign(n)] + Tally(Size(n))
  }

  lemma NumberApart(a: int, b: int, r: Bytes, s: Bytes)
    requires Number(a) + r == Number(b) + s
    ensures a == b && r == s
  {
    assert Number(a) + r == [Sign(a)] + (Tally(Size(a)) + r);
    assert Number(b) + s == [Sign(b)] + (Tally(Size(b)) + s);
    TailsAgree(Sign(a), Sign(b), Tally(Size(a)) + r, Tally(Size(b)) + s);
    TallyApart(Size(a), Size(b), r, s);
  }

  lemma TailsAgree(x: bv8, y: bv8, r: Bytes, s: Bytes)
    requires [x] + r == [y] + s
    ensures x == y && r == s
  {
    assert ([x] + r)[0] == x && ([y] + s)[0] == y;
    assert ([x] + r)[1..] == r && ([y] + s)[1..] == s;
  }

  function Numbers(ns: seq<int>): Bytes {
    if ns == [] then [2] else Number(ns[0]) + Numbers(ns[1..])
  }

  lemma NumbersEnd(ns: seq<int>)
    ensures |Numbers(ns)| > 0 && (Numbers(ns)[0] == 2 <==> ns == [])
  {
  }

  lemma {:induction false} NumbersApart(a: seq<int>, b: seq<int>)
    requires Numbers(a) == Numbers(b)
    ensures a == b
    decreases |a|
  {
    NumbersEnd(a);
    NumbersEnd(b);
    if a != [] && b != [] {
      NumberApart(a[0], b[0], Numbers(a[1..]), Numbers(b[1..]));
      NumbersApart(a[1..], b[1..]);
      assert a == [a[0]] + a[1..] && b == [b[0]] + b[1..];
    }
  }

  // ---------------------------------------------------------------- manifests as numbers

  function Letters(s: string): seq<int> {
    [|s|] + seq(|s|, i requires 0 <= i < |s| => s[i] as int)
  }

  lemma LettersApart(s: string, t: string, r: seq<int>, q: seq<int>)
    requires Letters(s) + r == Letters(t) + q
    ensures s == t && r == q
  {
    var x, y := Letters(s) + r, Letters(t) + q;
    assert x[0] == |s| && y[0] == |t|;
    forall i | 0 <= i < |s| ensures s[i] == t[i] {
      assert x[i + 1] == s[i] as int && y[i + 1] == t[i] as int;
    }
    assert x[|s| + 1..] == r && y[|t| + 1..] == q;
  }

  function EntryNumbers(entries: seq<Entry>): seq<int> {
    if entries == [] then []
    else Letters(entries[0].path) + (Letters(entries[0].sha256) + ([entries[0].size] + EntryNumbers(entries[1..])))
  }

  lemma {:induction false} EntriesApart(a: seq<Entry>, b: seq<Entry>)
    requires |a| == |b| && EntryNumbers(a) == EntryNumbers(b)
    ensures a == b
    decreases |a|
  {
    if a != [] {
      var restA, restB := [a[0].size] + EntryNumbers(a[1..]), [b[0].size] + EntryNumbers(b[1..]);
      LettersApart(a[0].path, b[0].path, Letters(a[0].sha256) + restA, Letters(b[0].sha256) + restB);
      LettersApart(a[0].sha256, b[0].sha256, restA, restB);
      assert restA[0] == a[0].size && restB[0] == b[0].size;
      assert restA[1..] == EntryNumbers(a[1..]) && restB[1..] == EntryNumbers(b[1..]);
      EntriesApart(a[1..], b[1..]);
      assert a == [a[0]] + a[1..] && b == [b[0]] + b[1..];
    }
  }

  function EntriesOf(m: Manifest): seq<Entry> {
    if m.entries.Some? then m.entries.value else []
  }

  function Head(m: Manifest): seq<int> {
    [m.version, m.dumpSize, m.fileCount, m.filesSize, if m.entries.Some? then |m.entries.value| else -1]
  }

  function Rendered(m: Manifest): Bytes {
    Numbers(Head(m) + (Letters(m.dumpSha256) + EntryNumbers(EntriesOf(m))))
  }

  lemma RenderedApart(m: Manifest, n: Manifest)
    requires Rendered(m) == Rendered(n)
    ensures m == n
  {
    var tailM, tailN := Letters(m.dumpSha256) + EntryNumbers(EntriesOf(m)), Letters(n.dumpSha256) + EntryNumbers(EntriesOf(n));
    NumbersApart(Head(m) + tailM, Head(n) + tailN);
    assert (Head(m) + tailM)[..5] == Head(m) && (Head(n) + tailN)[..5] == Head(n);
    assert (Head(m) + tailM)[5..] == tailM && (Head(n) + tailN)[5..] == tailN;
    assert forall i :: 0 <= i < 5 ==> Head(m)[i] == Head(n)[i];
    assert Head(m)[4] == Head(n)[4];
    LettersApart(m.dumpSha256, n.dumpSha256, EntryNumbers(EntriesOf(m)), EntryNumbers(EntriesOf(n)));
    EntriesApart(EntriesOf(m), EntriesOf(n));
  }

  // ---------------------------------------------------------------- the codec

  function Letter(b: bv8): char {
    b as int as char
  }

  lemma LetterApart(a: bv8, b: bv8)
    requires Letter(a) == Letter(b)
    ensures a == b
  {
    assert a as int == b as int;
    assert (a as int) as bv8 == (b as int) as bv8;
  }

  function Digest(b: Bytes): string {
    "." + seq(|b|, i requires 0 <= i < |b| => Letter(b[i]))
  }

  lemma DigestApart(a: Bytes, b: Bytes)
    requires Digest(a) == Digest(b)
    ensures a == b
  {
    var x, y := Digest(a), Digest(b);
    assert |x| == |a| + 1 && |y| == |b| + 1;
    forall i | 0 <= i < |a| ensures a[i] == b[i] {
      assert x[i + 1] == Letter(a[i]) && y[i + 1] == Letter(b[i]);
      LetterApart(a[i], b[i]);
    }
  }

  ghost function Parsed(b: Bytes): Option<Manifest> {
    if exists m :: Rendered(m) == b then
      var m :| Rendered(m) == b;
      Some(m)
    else None
  }

  ghost function TallyCodec(): Codec {
    Codec(Digest, Rendered, Parsed)
  }

  lemma TallyCodecIsFaithful()
    ensures Faithful(TallyCodec())
  {
    var k := TallyCodec();
    forall a, b | k.hash(a) == k.hash(b) ensures a == b {
      DigestApart(a, b);
    }
    forall m ensures k.parse(k.render(m)) == Some(m) {
      var n := Parsed(Rendered(m)).value;
      assert Rendered(n) == Rendered(m);
      RenderedApart(n, m);
    }
  }

  /** With that codec the backup of every tree whose files are plain files is accepted. */
  lemma LinkFreeTreeVerifies(dump: Bytes, listing: seq<Found>, leadsTo: Parts -> Option<Bytes>)
    requires IsListing(listing)
    requires forall i :: 0 <= i < |listing| && IsFile(listing[i].node) ==>
               listing[i].node.File? && !listing[i].node.storedBefore
    ensures var k := TallyCodec();
            Accepted(k, WriteArchive(k, BuildManifest(k, dump, listing), dump, listing, leadsTo))
  {
    TallyCodecIsFaithful();
    UnchangedTreeVerifies(TallyCodec(), dump, listing, leadsTo);
  }
}
