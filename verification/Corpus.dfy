/** Reference corpus uploads: two ways to create them, workers that claim and index them, and the
  * knowledge rows they leave behind. A creating request takes two steps: it checks what is taken, and
  * later inserts its upload without looking again; anything may happen in between. Every other step is
  * one transaction. */
module Corpus {
  import opened Prelude

  type SectionCode = string
  type VersionId = nat
  type UploadId = nat
  type WorkerId = nat
  type RequestId = nat
  type Hash = string

  const SECTION_ORDER: seq<SectionCode> := [
    "overview", "organization_measures", "construction_plan", "technical_measures",
    "safety_measures", "risk_identification", "emergency_plan", "environmental_measures"]

  datatype UploadStatus = Queued | Processing | Succeeded | Failed

  datatype Upload = Upload(version: VersionId, primary: SectionCode, codes: seq<SectionCode>,
                           fallback: bool, status: UploadStatus, chunkCount: nat,
                           indexed: seq<SectionCode>, skipped: seq<SectionCode>)

  // One indexed chunk. `version` and `code` are part of its identifier.
  datatype Chunk = Chunk(version: VersionId, code: SectionCode, text: string)

  // Where the text of a new upload comes from: a stored version, or the file of the request.
  datatype Source = Stored(version: VersionId) | NewFile

  // A request that has passed its checks and not inserted yet. `since` is the first upload it cannot
  // have seen; `held` are the upload rows it has locked.
  datatype Request = Request(hash: Hash, codes: seq<SectionCode>, source: Source, fallback: bool,
                             since: UploadId, held: set<UploadId>)

  // The job whose id is made of the upload's. `Waiting` covers queued, deferred and scheduled.
  datatype Job = Waiting | Started | Over

  datatype Queue = Queue(
    calls: multiset<UploadId>,   // on-commit calls of queue_knowledge_corpus_upload not yet made
    jobs: map<UploadId, Job>)

  datatype State = State(
    hashes: map<VersionId, Hash>,          // stored document versions and their content hashes
    uploads: map<UploadId, Upload>, nextUpload: UploadId,
    requests: map<RequestId, Request>,     // creating requests between check and insert
    rows: set<Chunk>,                      // active, approved knowledge rows
    workers: map<WorkerId, UploadId>,      // workers between claim and their last transaction
    produced: map<UploadId, set<Chunk>>,   // what the last successful run of an upload wrote
    queue: Queue)

  function UploadCodes(u: Upload): seq<SectionCode> {
    if u.codes == [] then [u.primary] else u.codes
  }

  predicate SameContent(st: State, version: VersionId, hash: Hash) {
    version in st.hashes && st.hashes[version] == hash
  }

  /** Section codes already taken by some upload of the same content. */
  predicate Reserved(st: State, hash: Hash, code: SectionCode) {
    ReservedBy(st, st.uploads.Keys, hash, code)
  }

  predicate ReservedBy(st: State, ids: set<UploadId>, hash: Hash, code: SectionCode) {
    exists id :: id in ids && id in st.uploads && SameContent(st, st.uploads[id].version, hash)
                 && code in UploadCodes(st.uploads[id])
  }

  predicate Indexed(st: State, hash: Hash, code: SectionCode) {
    exists row :: row in st.rows && SameContent(st, row.version, hash) && row.code == code
  }

  // ---------------------------------------------------------------- _normalize_section_codes

  function Normalized(codes: seq<SectionCode>): seq<SectionCode> {
    if codes == [] then []
    else
      var before := Normalized(codes[..|codes| - 1]);
      var code := codes[|codes| - 1];
      if code in SECTION_ORDER && code !in before then before + [code] else before
  }

  predicate Distinct<T(==)>(s: seq<T>) {
    forall i, j :: 0 <= i < j < |s| ==> s[i] != s[j]
  }

  /** Keeps the known codes, each once. */
  lemma {:induction false} NormalizedCodes(codes: seq<SectionCode>)
    ensures Distinct(Normalized(codes))
    ensures forall c :: c in Normalized(codes) <==> c in codes && c in SECTION_ORDER
  {
    if codes != [] {
      var init := codes[..|codes| - 1];
      NormalizedCodes(init);
      assert codes == init + [codes[|codes| - 1]];
    }
  }

  method NormalizeSectionCodes(codes: seq<SectionCode>) returns (normalized: seq<SectionCode>)
    ensures normalized == Normalized(codes)
  {
    normalized := [];
    for i := 0 to |codes|
      invariant normalized == Normalized(codes[..i])
    {
      assert codes[..i + 1][..i] == codes[..i];
      if codes[i] in SECTION_ORDER && codes[i] !in normalized {
        normalized := normalized + [codes[i]];
      }
    }
    assert codes[..|codes|] == codes;
  }

  // ---------------------------------------------------------------- indexing one upload

  // What the chunker makes of one section: nothing to index, some texts, or an error.
  datatype SectionResult = Nothing | Chunked(texts: seq<string>) | Broken

  function ChunksOf(version: VersionId, code: SectionCode, texts: seq<string>): seq<Chunk> {
    seq(|texts|, i requires 0 <= i < |texts| => Chunk(version, code, texts[i]))
  }

  datatype Indexing = Indexing(drafts: seq<Chunk>, indexed: seq<SectionCode>, skipped: seq<SectionCode>)

  /** None when the chunker fails on some section. */
  function Index(version: VersionId, codes: seq<SectionCode>, chunker: SectionCode -> SectionResult): Option<Indexing> {
    if codes == [] then Some(Indexing([], [], []))
    else
      var code := codes[|codes| - 1];
      match Index(version, codes[..|codes| - 1], chunker)
      case None => None
      case Some(ix) =>
        match chunker(code)
        case Broken => None
        case Nothing => Some(ix.(skipped := ix.skipped + [code]))
        case Chunked(texts) =>
          Some(Indexing(ix.drafts + ChunksOf(version, code, texts), ix.indexed + [code], ix.skipped))
  }

  /** Every draft belongs to the version and to an indexed section, and only sections of the upload
    * are indexed. */
  lemma {:induction false} IndexStaysInside(version: VersionId, codes: seq<SectionCode>, chunker: SectionCode -> SectionResult)
    requires Index(version, codes, chunker).Some?
    ensures var ix := Index(version, codes, chunker).value;
            && (forall d :: d in ix.drafts ==> d.version == version && d.code in ix.indexed)
            && (forall c :: c in ix.indexed ==> c in codes && chunker(c).Chunked?)
  {
    if codes != [] {
      var init, code := codes[..|codes| - 1], codes[|codes| - 1];
      IndexStaysInside(version, init, chunker);
      var before := Index(version, init, chunker).value;
      var ix := Index(version, codes, chunker).value;
      assert codes == init + [code];
      if chunker(code).Chunked? {
        var new_ := ChunksOf(version, code, chunker(code).texts);
        assert ix.indexed == before.indexed + [code];
        forall d | d in ix.drafts ensures d.version == version && d.code in ix.indexed {
          assert d in before.drafts || d in new_;
        }
      }
    }
  }

  lemma OneMoreCode(codes: seq<SectionCode>, code: SectionCode)
    ensures multiset(codes + [code]) == multiset(codes) + multiset{code}
  {
  }

  /** Every section of the upload is either indexed or skipped, as often as it was asked for. */
  lemma {:induction false} IndexCoversAll(version: VersionId, codes: seq<SectionCode>, chunker: SectionCode -> SectionResult)
    requires Index(version, codes, chunker).Some?
    ensures var ix := Index(version, codes, chunker).value;
            multiset(ix.indexed) + multiset(ix.skipped) == multiset(codes)
  {
    if codes != [] {
      var init, code := codes[..|codes| - 1], codes[|codes| - 1];
      IndexCoversAll(version, init, chunker);
      var before := Index(version, init, chunker).value;
      assert codes == init + [code];
      OneMoreCode(init, code);
      if chunker(code).Nothing? {
        OneMoreCode(before.skipped, code);
      } else {
        OneMoreCode(before.indexed, code);
      }
    }
  }

  method IndexSections(version: VersionId, codes: seq<SectionCode>, chunker: SectionCode -> SectionResult)
      returns (result: Option<Indexing>)
    ensures result == Index(version, codes, chunker)
  {
    var drafts: seq<Chunk> := [];
    var indexed: seq<SectionCode>, skipped: seq<SectionCode> := [], [];
    for i := 0 to |codes|
      invariant Index(version, codes[..i], chunker) == Some(Indexing(drafts, indexed, skipped))
    {
      assert codes[..i + 1][..i] == codes[..i];
      match chunker(codes[i]) {
        case Broken =>
          BrokenStays(version, codes, chunker, i + 1);
          return None;
        case Nothing => skipped := skipped + [codes[i]];
        case Chunked(texts) =>
          drafts := drafts + ChunksOf(version, codes[i], texts);
          indexed := indexed + [codes[i]];
      }
    }
    assert codes[..|codes|] == codes;
    return Some(Indexing(drafts, indexed, skipped));
  }

  lemma {:induction false} BrokenStays(version: VersionId, codes: seq<SectionCode>, chunker: SectionCode -> SectionResult, n: nat)
    requires n <= |codes| && Index(version, codes[..n], chunker) == None
    ensures Index(version, codes, chunker) == None
  {
    if n < |codes| {
      assert codes[..|codes| - 1][..n] == codes[..n];
      BrokenStays(version, codes[..|codes| - 1], chunker, n);
    } else {
      assert codes[..n] == codes;
    }
  }

  // ---------------------------------------------------------------- the tables

  function PutUpload(st: State, id: UploadId, u: Upload): State {
    st.(uploads := st.uploads[id := u])
  }

  /** A new upload row, to be handed to the queue after the commit. */
  function NewUpload(st: State, version: VersionId, codes: seq<SectionCode>, fallback: bool): State
    requires codes != []
  {
    Called(PutUpload(st, st.nextUpload, Upload(version, codes[0], codes, fallback, Queued, 0, [], [])), st.nextUpload)
    .(nextUpload := st.nextUpload + 1)
  }

  function Called(st: State, id: UploadId): State {
    st.(queue := st.queue.(calls := st.queue.calls + multiset{id}))
  }

  function PutRequest(st: State, r: RequestId, q: Request): State {
    st.(requests := st.requests[r := q])
  }

  predicate SomeOf(st: State, hash: Hash) {
    exists id :: id in st.uploads && SameContent(st, st.uploads[id].version, hash)
  }

  /** The first half of create_knowledge_corpus_upload, before its transaction. `newest` is the newest
    * upload of the same content, if there is one; `folder` says whether the corpus folder exists. */
  function CheckUpload(st: State, r: RequestId, hash: Hash, requested: seq<SectionCode>, newest: Option<UploadId>,
                       folder: bool): State {
    var codes := Normalized(requested);
    if r in st.requests || codes == [] then st
    else if exists c :: c in codes && Reserved(st, hash, c) then st
    else if exists c :: c in codes && Indexed(st, hash, c) then st
    else if SomeOf(st, hash) then
      if newest.Some? && newest.value in st.uploads && SameContent(st, st.uploads[newest.value].version, hash)
      then PutRequest(st, r, Request(hash, codes, Stored(st.uploads[newest.value].version), |codes| == 1,
                                     st.nextUpload, {}))
      else st
    else if folder then PutRequest(st, r, Request(hash, codes, NewFile, |codes| == 1, st.nextUpload, {}))
    else st
  }

  function OfContent(st: State, hash: Hash): set<UploadId> {
    set id <- st.uploads | SameContent(st, st.uploads[id].version, hash)
  }

  /** Some upload row of this content is locked by a request. */
  predicate Waits(st: State, hash: Hash) {
    exists r, id :: r in st.requests && id in st.requests[r].held && id in OfContent(st, hash)
  }

  function Unclaimed(st: State, hash: Hash, codes: seq<SectionCode>): seq<SectionCode> {
    if codes == [] then []
    else
      var before := Unclaimed(st, hash, codes[..|codes| - 1]);
      var code := codes[|codes| - 1];
      if !Indexed(st, hash, code) && !Reserved(st, hash, code) then before + [code] else before
  }

  lemma {:induction false} UnclaimedCodes(st: State, hash: Hash, codes: seq<SectionCode>)
    ensures forall c :: c in Unclaimed(st, hash, codes) <==>
              c in codes && !Indexed(st, hash, c) && !Reserved(st, hash, c)
  {
    if codes != [] {
      UnclaimedCodes(st, hash, codes[..|codes| - 1]);
      assert codes == codes[..|codes| - 1] + [codes[|codes| - 1]];
    }
  }

  /** enqueue_technical_solution_corpus for one plan, up to the insert: lock the uploads of the content
    * that exist, and keep the sections that are free. */
  function CheckPlan(st: State, r: RequestId, version: VersionId, planned: seq<SectionCode>): State {
    if r in st.requests || version !in st.hashes || Waits(st, st.hashes[version]) then st
    else
      var hash := st.hashes[version];
      var codes := Unclaimed(st, hash, planned);
      if codes == [] then st
      else PutRequest(st, r, Request(hash, codes, Stored(version), false, st.nextUpload, OfContent(st, hash)))
  }

  /** The insert of either path, from what the check saw. `file` is the version a new file is stored as,
    * None when the document store refuses it. */
  function Insert(st: State, r: RequestId, file: Option<VersionId>): State {
    if r !in st.requests then st
    else
      var q := st.requests[r];
      var done := st.(requests := st.requests - {r});
      if q.codes == [] then done
      else
        match q.source
        case Stored(version) => NewUpload(done, version, q.codes, q.fallback)
        case NewFile =>
          if file == None || file.value in st.hashes then done
          else NewUpload(done.(hashes := st.hashes[file.value := q.hash]), file.value, q.codes, q.fallback)
  }

  /** A request that ends without inserting. */
  function Drop(st: State, r: RequestId): State {
    st.(requests := st.requests - {r})
  }

  function Retry(st: State, id: UploadId): State {
    if id !in st.uploads || st.uploads[id].status != Failed then st
    else
      Called(PutUpload(st, id, st.uploads[id].(status := Queued, chunkCount := 0, indexed := [], skipped := [])), id)
  }

  predicate IsLive(queue: Queue, id: UploadId) {
    id in queue.jobs && queue.jobs[id] != Over
  }

  /** queue_knowledge_corpus_upload: a live job is kept, anything else is replaced; when the queue cannot be
    * reached the upload is marked failed whatever its status is by then. */
  function RunCall(st: State, id: UploadId, reachable: bool): State {
    if id !in st.queue.calls then st
    else
      var queue := st.queue.(calls := st.queue.calls - multiset{id});
      if reachable then
        st.(queue := if IsLive(queue, id) then queue else queue.(jobs := queue.jobs[id := Waiting]))
      else if id in st.uploads then
        PutUpload(st, id, st.uploads[id].(status := Failed)).(queue := queue)
      else st.(queue := queue)
  }

  function PutJob(st: State, id: UploadId, job: Job): State {
    st.(queue := st.queue.(jobs := st.queue.jobs[id := job]))
  }

  /** The queue starts the job. The first transaction of run_knowledge_corpus_upload claims the upload, or
    * leaves it alone. */
  function Claim(st: State, w: WorkerId, id: UploadId): State {
    if w in st.workers || id !in st.uploads then st
    else if st.uploads[id].status != Queued && st.uploads[id].status != Failed then PutJob(st, id, Started)
    else PutUpload(PutJob(st, id, Started), id, st.uploads[id].(status := Processing)).(workers := st.workers[w := id])
  }

  /** The started job ends, or is given up by the queue; after an exception it may be scheduled again. */
  function EndJob(st: State, id: UploadId, again: bool): State {
    if id !in st.queue.jobs || st.queue.jobs[id] != Started then st
    else PutJob(st, id, if again then Waiting else Over)
  }

  function Fail(st: State, w: WorkerId): State {
    if w !in st.workers || st.workers[w] !in st.uploads then st
    else
      var id := st.workers[w];
      PutUpload(st, id, st.uploads[id].(status := Failed)).(workers := st.workers - {w})
  }

  function ToSet<T>(s: seq<T>): set<T> {
    set i | 0 <= i < |s| :: s[i]
  }

  function Replaced(rows: set<Chunk>, u: Upload, drafts: set<Chunk>): set<Chunk> {
    (set row <- rows | !(row.version == u.version && row.code in UploadCodes(u))) + drafts
  }

  /** The rest of run_knowledge_corpus_upload: index the sections, then replace the rows of the
    * upload's sections; any exception marks the upload failed. Duplicate chunks violate the unique
    * chunk identifier. */
  function Finish(st: State, w: WorkerId, chunker: SectionCode -> SectionResult): State {
    if w !in st.workers || st.workers[w] !in st.uploads then st
    else
      var id := st.workers[w];
      var u := st.uploads[id];
      match Index(u.version, UploadCodes(u), chunker)
      case None => Fail(st, w)
      case Some(ix) =>
        if ix.drafts == [] || !Distinct(ix.drafts) then Fail(st, w)
        else if u.status != Processing then st.(workers := st.workers - {w})
        else
          PutUpload(st, id, u.(status := Succeeded, chunkCount := |ix.drafts|,
                               indexed := ix.indexed, skipped := ix.skipped))
          .(rows := Replaced(st.rows, u, ToSet(ix.drafts)), workers := st.workers - {w},
            produced := st.produced[id := ToSet(ix.drafts)])
  }

  function Crash(st: State, w: WorkerId): State {
    st.(workers := st.workers - {w})
  }

  datatype Step =
    | SCheck(r: RequestId, hash: Hash, requested: seq<SectionCode>, newest: Option<UploadId>, folder: bool)
    | SPlan(r: RequestId, version: VersionId, planned: seq<SectionCode>)
    | SInsert(r: RequestId, file: Option<VersionId>)
    | SDrop(r: RequestId)
    | SStore(version: VersionId, hash: Hash)      // some other document version is stored
    | SRetry(id: UploadId)
    | SCall(id: UploadId, reachable: bool)
    | SClaim(w: WorkerId, id: UploadId)
    | SFinish(w: WorkerId, chunker: SectionCode -> SectionResult)
    | SFail(w: WorkerId)
    | SCrash(w: WorkerId)
    | SEnd(id: UploadId, again: bool)

  /** Steps of creating requests; the others are about stored versions, uploads and their jobs. */
  predicate Creates(step: Step) {
    step.SCheck? || step.SPlan? || step.SInsert? || step.SDrop?
  }

  ghost function Next(st: State, step: Step): State {
    match step
    case SCheck(r, hash, requested, newest, folder) => CheckUpload(st, r, hash, requested, newest, folder)
    case SPlan(r, version, planned) => CheckPlan(st, r, version, planned)
    case SInsert(r, file) => Insert(st, r, file)
    case SDrop(r) => Drop(st, r)
    case _ => Process(st, step)
  }

  function Process(st: State, step: Step): State
    requires !Creates(step)
  {
    match step
    case SStore(version, hash) =>
      if version in st.hashes then st else st.(hashes := st.hashes[version := hash])
    case SRetry(id) => Retry(st, id)
    case SCall(id, reachable) => RunCall(st, id, reachable)
    case SClaim(w, id) => Claim(st, w, id)
    case SFinish(w, chunker) => Finish(st, w, chunker)
    case SFail(w) => Fail(st, w)
    case SCrash(w) => Crash(st, w)
    case SEnd(id, again) => EndJob(st, id, again)
  }

  ghost function Run(st: State, steps: seq<Step>): State
    decreases |steps|
  {
    if steps == [] then st else Run(Next(st, steps[0]), steps[1..])
  }

  lemma {:induction false} RunOver(st: State, first: seq<Step>, second: seq<Step>)
    ensures Run(st, first + second) == Run(Run(st, first), second)
    decreases |first|
  {
    if first == [] {
      assert first + second == second;
    } else {
      assert (first + second)[1..] == first[1..] + second;
      RunOver(Next(st, first[0]), first[1..], second);
    }
  }

  lemma RunOne(st: State, step: Step)
    ensures Run(st, [step]) == Next(st, step)
  {
    assert [step][1..] == [];
  }

  lemma RunMore(st: State, steps: seq<Step>, step: Step)
    ensures Run(st, steps + [step]) == Next(Run(st, steps), step)
  {
    RunOver(st, steps, [step]);
    RunOne(Run(st, steps), step);
  }

  const EMPTY := State(map[], map[], 0, map[], {}, map[], map[], Queue(multiset{}, map[]))
}
