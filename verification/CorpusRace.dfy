/** The interleaving that makes two uploads of one file share a section, and what becomes of the rows. */
module CorpusRace {
  import opened Prelude
  import opened Corpus
  import opened CorpusRuns

  const FILE: Hash := "h"
  const A: SectionCode := SECTION_ORDER[0]
  const B: SectionCode := SECTION_ORDER[1]

  /** The file is uploaded for section A. */
  const FIRST: seq<Step> := [SCheck(0, FILE, [A], None, true), SInsert(0, Some(0))]

  /** Two requests for section B both check before either inserts. */
  const RACE: seq<Step> := [
    SCheck(1, FILE, [B], Some(0), true), SCheck(2, FILE, [B], Some(0), true),
    SInsert(1, None), SInsert(2, None)]

  function Row(code: SectionCode, status: UploadStatus): Upload {
    Upload(0, code, [code], true, status, 0, [], [])
  }

  const UPLOADED := State(map[0 := FILE], map[0 := Row(A, Queued)], 1, map[], {}, map[], map[],
                          Queue(multiset{0}, map[]))

  const RACED := State(map[0 := FILE], map[0 := Row(A, Queued), 1 := Row(B, Queued), 2 := Row(B, Queued)], 3, map[], {},
                       map[], map[], Queue(multiset{0, 1, 2}, map[]))

  lemma CodesAreKept(code: SectionCode)
    requires code in SECTION_ORDER
    ensures Normalized([code]) == [code]
  {
    assert [code][..0] == [];
  }

  const CHECKED := EMPTY.(requests := map[0 := Request(FILE, [A], NewFile, true, 0, {})])

  lemma FirstChecks()
    ensures CheckUpload(EMPTY, 0, FILE, [A], None, true) == CHECKED
  {
    CodesAreKept(A);
  }

  lemma FirstInserts()
    ensures Insert(CHECKED, 0, Some(0)) == UPLOADED
  {
    assert Insert(CHECKED, 0, Some(0)).requests == map[];
  }

  lemma FirstUploads()
    ensures Run(EMPTY, FIRST) == UPLOADED
  {
    FirstChecks();
    FirstInserts();
    RunOne(EMPTY, FIRST[0]);
    RunOne(CHECKED, FIRST[1]);
    RunOver(EMPTY, [FIRST[0]], [FIRST[1]]);
    assert FIRST == [FIRST[0]] + [FIRST[1]];
  }

  const SECOND := Request(FILE, [B], Stored(0), true, 1, {})

  lemma SectionsDiffer()
    ensures A != B
  {
  }

  lemma CheckPasses(r: RequestId, requests: map<RequestId, Request>)
    requires r !in requests
    ensures var st := UPLOADED.(requests := requests);
            CheckUpload(st, r, FILE, [B], Some(0), true) == PutRequest(st, r, SECOND)
  {
    var st := UPLOADED.(requests := requests);
    CodesAreKept(B);
    SectionsDiffer();
    assert st.uploads[0].codes == [A];
    assert !Reserved(st, FILE, B);
    assert SameContent(st, st.uploads[0].version, FILE);
    assert SomeOf(st, FILE);
  }

  lemma InsertsFollow()
    ensures var both := UPLOADED.(requests := map[1 := SECOND, 2 := SECOND]);
            Insert(Insert(both, 1, None), 2, None) == RACED
  {
    var both := UPLOADED.(requests := map[1 := SECOND, 2 := SECOND]);
    var one := Insert(both, 1, None);
    assert one.requests == map[2 := SECOND];
    assert one.uploads == map[0 := Row(A, Queued), 1 := Row(B, Queued)];
    var two := Insert(one, 2, None);
    assert two.requests == map[];
    assert two.uploads == RACED.uploads;
  }

  lemma RunFour(st: State, a: Step, b: Step, c: Step, d: Step)
    ensures Run(st, [a, b, c, d]) == Next(Next(Next(Next(st, a), b), c), d)
  {
    RunOne(st, a);
    RunMore(st, [a], b);
    RunMore(st, [a] + [b], c);
    RunMore(st, [a] + [b] + [c], d);
    assert [a, b, c, d] == [a] + [b] + [c] + [d];
  }

  lemma RaceRuns()
    ensures Run(UPLOADED, RACE) == RACED
  {
    RunFour(UPLOADED, RACE[0], RACE[1], RACE[2], RACE[3]);
    CheckPasses(1, map[]);
    CheckPasses(2, map[1 := SECOND]);
    InsertsFollow();
    assert UPLOADED == UPLOADED.(requests := map[]);
    assert PutRequest(UPLOADED, 1, SECOND) == UPLOADED.(requests := map[1 := SECOND]);
    var one := UPLOADED.(requests := map[1 := SECOND]);
    assert PutRequest(one, 2, SECOND) == UPLOADED.(requests := map[1 := SECOND, 2 := SECOND]);
  }

  /** From the empty tables: an upload for section A, then two requests for section B that both check
    * before either inserts. Both uploads are made, and they share the section. */
  lemma RaceSharesSection()
    ensures Run(EMPTY, FIRST + RACE) == RACED
    ensures !Disjoint(Run(EMPTY, FIRST + RACE)) && !NeverOvertaken(EMPTY, FIRST + RACE)
  {
    FirstUploads();
    RaceRuns();
    RunOver(EMPTY, FIRST, RACE);
    assert B in UploadCodes(RACED.uploads[1]) && B in UploadCodes(RACED.uploads[2]);
    assert !Apart(RACED, RACED.uploads[1], RACED.uploads[2]);
    SectionsSharedIffOvertaken(FIRST + RACE);
  }

  // ---------------------------------------------------------------- the rows

  function Texts(text: string): SectionCode -> SectionResult {
    (code: SectionCode) => Chunked([text])
  }

  /** Two workers take the two uploads and index them, one after the other. */
  function INDEXING(x: string, y: string): seq<Step> {
    [SClaim(1, 1), SClaim(2, 2), SFinish(1, Texts(x)), SFinish(2, Texts(y))]
  }

  lemma IndexOne(code: SectionCode, text: string)
    ensures Index(0, [code], Texts(text)) == Some(Indexing([Chunk(0, code, text)], [code], []))
  {
    var codes := [code];
    assert codes[..|codes| - 1] == [];
    assert ChunksOf(0, code, [text]) == [Chunk(0, code, text)];
    assert Index(0, [], Texts(text)) == Some(Indexing([], [], []));
    assert Texts(text)(code) == Chunked([text]);
    var drafts: seq<Chunk>, indexed: seq<SectionCode> := [], [];
    assert drafts + [Chunk(0, code, text)] == [Chunk(0, code, text)] && indexed + [code] == [code];
  }

  lemma OneChunk(chunk: Chunk)
    ensures ToSet([chunk]) == {chunk} && Distinct([chunk])
  {
    assert [chunk][0] in ToSet([chunk]);
  }

  function Done(text: string): Upload {
    Upload(0, B, [B], true, Succeeded, 1, [B], [])
  }

  /** Both uploads, and which of them are held: worker k holds upload k. */
  ghost predicate Stage(st: State, one: Upload, two: Upload, holders: set<WorkerId>) {
    && 1 in st.uploads && st.uploads[1] == one && 2 in st.uploads && st.uploads[2] == two
    && st.workers.Keys == holders && forall w <- holders :: st.workers[w] == w
  }

  lemma FirstClaims(st: State, two: Upload)
    requires Stage(st, Row(B, Queued), two, {})
    ensures var after := Claim(st, 1, 1);
            && Stage(after, Row(B, Processing), two, {1}) && after.rows == st.rows && after.produced == st.produced
  {
    ClaimIs(st, 1, 1);
  }

  lemma SecondClaims(st: State, one: Upload)
    requires Stage(st, one, Row(B, Queued), {1})
    ensures var after := Claim(st, 2, 2);
            && Stage(after, one, Row(B, Processing), {1, 2}) && after.rows == st.rows && after.produced == st.produced
  {
    ClaimIs(st, 2, 2);
  }

  lemma FinishOne(st: State, w: WorkerId, text: string)
    requires w in st.workers && st.workers[w] in st.uploads && st.uploads[st.workers[w]] == Row(B, Processing)
    ensures Finish(st, w, Texts(text))
            == PutUpload(st, st.workers[w], Done(text))
               .(rows := Replaced(st.rows, Row(B, Processing), {Chunk(0, B, text)}), workers := st.workers - {w},
                 produced := st.produced[st.workers[w] := {Chunk(0, B, text)}])
  {
    IndexOne(B, text);
    OneChunk(Chunk(0, B, text));
    assert Writes(st, w, Texts(text));
    FinishIs(st, w, Texts(text));
  }

  /** Only chunks of section B are there, and they go. */
  lemma RowsReplaced(rows: set<Chunk>, text: string)
    requires forall row <- rows :: row.version == 0 && row.code == B
    ensures Replaced(rows, Row(B, Processing), {Chunk(0, B, text)}) == {Chunk(0, B, text)}
  {
    assert B in UploadCodes(Row(B, Processing));
  }

  lemma FirstFinishes(st: State, x: string)
    requires Stage(st, Row(B, Processing), Row(B, Processing), {1, 2}) && st.rows == {}
    ensures var after := Finish(st, 1, Texts(x));
            && Stage(after, Done(x), Row(B, Processing), {2}) && after.rows == {Chunk(0, B, x)}
            && 1 in after.produced && after.produced[1] == {Chunk(0, B, x)}
  {
    FinishOne(st, 1, x);
    RowsReplaced(st.rows, x);
  }

  lemma SecondFinishes(st: State, x: string, y: string)
    requires Stage(st, Done(x), Row(B, Processing), {2}) && st.rows == {Chunk(0, B, x)}
    requires 1 in st.produced && st.produced[1] == {Chunk(0, B, x)}
    ensures var after := Finish(st, 2, Texts(y));
            && Stage(after, Done(x), Done(y), {}) && after.rows == {Chunk(0, B, y)}
            && 1 in after.produced && after.produced[1] == {Chunk(0, B, x)}
  {
    FinishOne(st, 2, y);
    RowsReplaced(st.rows, y);
  }

  lemma RowsOfDone(st: State, x: string, y: string)
    requires st.rows == {Chunk(0, B, y)}
    ensures RowsOf(st, Done(x)) == {Chunk(0, B, y)}
  {
    assert B in UploadCodes(Done(x));
  }

  lemma BothAreIndexed(st: State, x: string, y: string)
    requires Stage(st, Row(B, Queued), Row(B, Queued), {}) && st.rows == {}
    ensures var after := Run(st, INDEXING(x, y));
            && Stage(after, Done(x), Done(y), {}) && after.rows == {Chunk(0, B, y)}
            && 1 in after.produced && after.produced[1] == {Chunk(0, B, x)}
  {
    RunFour(st, SClaim(1, 1), SClaim(2, 2), SFinish(1, Texts(x)), SFinish(2, Texts(y)));
    FirstClaims(st, Row(B, Queued));
    var one := Claim(st, 1, 1);
    SecondClaims(one, Row(B, Processing));
    var both := Claim(one, 2, 2);
    FirstFinishes(both, x);
    SecondFinishes(Finish(both, 1, Texts(x)), x, y);
  }

  /** The second worker replaces the rows of the first: the first upload is SUCCEEDED and none of the
    * rows it produced is left. */
  lemma RaceOverwritesRows(x: string, y: string)
    requires x != y
    ensures var st := Run(RACED, INDEXING(x, y));
            && 1 in st.uploads && st.uploads[1].status == Succeeded && 1 in st.produced
            && st.produced[1] == {Chunk(0, B, x)} && RowsOf(st, st.uploads[1]) == {Chunk(0, B, y)}
  {
    BothAreIndexed(RACED, x, y);
    RowsOfDone(Run(RACED, INDEXING(x, y)), x, y);
  }
}
