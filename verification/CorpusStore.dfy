/** The corpus transactions as the program runs them, on tables updated in place. */
module CorpusStore {
  import opened Prelude
  import opened Corpus

  // What a scan proposes for one document.
  datatype Plan = Plan(version: VersionId, codes: seq<SectionCode>, empty: seq<SectionCode>,
                       estimate: nat, skipped: bool)
  {
    predicate ShouldQueue() {
      codes != [] && estimate > 0
    }
  }

  /** The sections a plan may ask for, in the fixed section order. */
  function Missing(order: seq<SectionCode>, recognized: set<SectionCode>, taken: set<SectionCode>): seq<SectionCode> {
    if order == [] then []
    else
      var before := Missing(order[..|order| - 1], recognized, taken);
      var code := order[|order| - 1];
      if code in recognized && code !in taken then before + [code] else before
  }

  lemma {:induction false} MissingCodes(order: seq<SectionCode>, recognized: set<SectionCode>, taken: set<SectionCode>)
    ensures forall c :: c in Missing(order, recognized, taken) <==> c in order && c in recognized && c !in taken
  {
    if order != [] {
      MissingCodes(order[..|order| - 1], recognized, taken);
      assert order == order[..|order| - 1] + [order[|order| - 1]];
    }
  }

  class Store {
    var hashes: map<VersionId, Hash>
    var uploads: map<UploadId, Upload>
    var nextUpload: UploadId
    var requests: map<RequestId, Request>
    var rows: set<Chunk>
    var workers: map<WorkerId, UploadId>
    var produced: map<UploadId, set<Chunk>>
    var calls: multiset<UploadId>
    var jobs: map<UploadId, Job>

    ghost function View(): State
      reads this
    {
      State(hashes, uploads, nextUpload, requests, rows, workers, produced, Queue(calls, jobs))
    }

    constructor ()
      ensures View() == Corpus.EMPTY
    {
      hashes, uploads, nextUpload, requests := map[], map[], 0, map[];
      rows, workers, produced := {}, map[], map[];
      calls, jobs := multiset{}, map[];
    }

    /** The `reserved_sections` loop of both creation paths. */
    method ReservedSections(hash: Hash) returns (reserved: set<SectionCode>)
      ensures forall c :: c in reserved <==> Reserved(View(), hash, c)
    {
      reserved := {};
      var ids := uploads.Keys;
      while ids != {}
        invariant ids <= uploads.Keys
        invariant forall c :: c in reserved <==> ReservedBy(View(), uploads.Keys - ids, hash, c)
        decreases ids
      {
        var id :| id in ids;
        ghost var before := uploads.Keys - ids;
        ids := ids - {id};
        assert uploads.Keys - ids == before + {id};
        if uploads[id].version in hashes && hashes[uploads[id].version] == hash {
          reserved := reserved + (set c <- UploadCodes(uploads[id]));
        }
      }
      assert uploads.Keys - {} == uploads.Keys;
    }

    method AddUpload(version: VersionId, codes: seq<SectionCode>, fallback: bool)
      requires codes != []
      modifies this`uploads, this`nextUpload, this`calls
      ensures View() == NewUpload(old(View()), version, codes, fallback)
    {
      uploads := uploads[nextUpload := Upload(version, codes[0], codes, fallback, Queued, 0, [], [])];
      calls := calls + multiset{nextUpload};
      nextUpload := nextUpload + 1;
    }

    /** The checks of create_knowledge_corpus_upload, outside any transaction. */
    method CheckUpload(r: RequestId, hash: Hash, requested: seq<SectionCode>, newest: Option<UploadId>, folder: bool)
        returns (passed: bool)
      requires r !in requests
      requires newest.Some? ==> newest.value in uploads && SameContent(View(), uploads[newest.value].version, hash)
      requires newest == None ==> !SomeOf(View(), hash)
      modifies this`requests
      ensures View() == Corpus.CheckUpload(old(View()), r, hash, requested, newest, folder)
      ensures passed <==> r in requests
      ensures passed <==> Normalized(requested) != [] && (newest.Some? || folder)
                          && forall c <- Normalized(requested) ::
                               !old(Reserved(View(), hash, c)) && !old(Indexed(View(), hash, c))
    {
      var codes := NormalizeSectionCodes(requested);
      if codes == [] { return false; }
      var reserved := ReservedSections(hash);
      if exists c :: c in codes && c in reserved { return false; }
      if exists c :: c in codes && exists row :: row in rows && row.version in hashes
                                                 && hashes[row.version] == hash && row.code == c {
        ghost var c :| c in codes && exists row :: row in rows && row.version in hashes
                                                   && hashes[row.version] == hash && row.code == c;
        assert Indexed(View(), hash, c);
        return false;
      }
      assert forall c :: c in codes ==> !Indexed(View(), hash, c);
      if newest == None && !folder { return false; }
      var source := if newest.Some? then Stored(uploads[newest.value].version) else NewFile;
      requests := requests[r := Request(hash, codes, source, |codes| == 1, nextUpload, {})];
      return true;
    }

    /** The transaction of either path: it inserts what the check found free, without looking again. */
    method InsertUpload(r: RequestId, file: Option<VersionId>) returns (created: bool)
      requires r in requests && requests[r].codes != []
      requires file.Some? ==> file.value !in hashes
      modifies this
      ensures View() == Corpus.Insert(old(View()), r, file)
      ensures created <==> nextUpload == old(nextUpload) + 1
      ensures created <==> old(requests[r]).source.Stored? || file.Some?
    {
      var q := requests[r];
      requests := requests - {r};
      match q.source {
        case Stored(version) =>
          AddUpload(version, q.codes, q.fallback);
          return true;
        case NewFile =>
          if file == None { return false; }
          hashes := hashes[file.value := q.hash];
          AddUpload(file.value, q.codes, q.fallback);
          return true;
      }
    }

    /** One plan of enqueue_technical_solution_corpus up to its insert: lock the uploads of the content,
      * keep the sections that are still free. */
    method CheckPlan(r: RequestId, version: VersionId, planned: seq<SectionCode>)
      requires r !in requests && version in hashes && !Waits(View(), hashes[version])
      modifies this`requests
      ensures View() == Corpus.CheckPlan(old(View()), r, version, planned)
    {
      var hash := hashes[version];
      var reserved := ReservedSections(hash);
      var codes: seq<SectionCode> := [];
      for i := 0 to |planned|
        invariant codes == Unclaimed(View(), hash, planned[..i])
        invariant View() == old(View())
      {
        assert planned[..i + 1][..i] == planned[..i];
        if !Indexed(State(hashes, uploads, nextUpload, requests, rows, workers, produced, Queue(calls, jobs)), hash, planned[i])
           && planned[i] !in reserved {
          codes := codes + [planned[i]];
        }
      }
      assert planned[..|planned|] == planned;
      if codes == [] { return; }
      var locked := set id <- uploads | uploads[id].version in hashes && hashes[uploads[id].version] == hash;
      assert locked == OfContent(View(), hash);
      requests := requests[r := Request(hash, codes, Stored(version), false, nextUpload, locked)];
    }

    /** scan_technical_solution_corpus for one document whose file parsed: the recognized sections
      * nobody has, unless the chunker fails or finds nothing to index in any of them. */
    method ScanDocument(version: VersionId, recognized: set<SectionCode>, existing: set<SectionCode>,
                        chunker: SectionCode -> SectionResult) returns (plan: Plan)
      requires version in hashes
      ensures !plan.skipped <==> plan.ShouldQueue()
      ensures plan.ShouldQueue() ==>
                && (forall c :: c in plan.codes <==> c in SECTION_ORDER && c in recognized
                                                     && c !in existing && !Reserved(View(), hashes[version], c))
                && (forall c <- plan.codes :: chunker(c) != Broken)
                && (forall c :: c in plan.empty <==> c in plan.codes && chunker(c).Nothing?)
                && exists c <- plan.codes :: chunker(c).Chunked? && chunker(c).texts != []
    {
      var reserved := ReservedSections(hashes[version]);
      var codes := Missing(SECTION_ORDER, recognized, existing + reserved);
      MissingCodes(SECTION_ORDER, recognized, existing + reserved);
      if codes == [] { return Plan(version, [], [], 0, true); }
      var empty: seq<SectionCode> := [];
      var estimate: nat := 0;
      for i := 0 to |codes|
        invariant forall k :: 0 <= k < i ==> chunker(codes[k]) != Broken
        invariant forall c :: c in empty <==> c in codes[..i] && chunker(c).Nothing?
        invariant estimate > 0 ==> exists k :: 0 <= k < i && chunker(codes[k]).Chunked? && chunker(codes[k]).texts != []
      {
        assert codes[..i + 1] == codes[..i] + [codes[i]];
        match chunker(codes[i]) {
          case Nothing => empty := empty + [codes[i]];
          case Broken => return Plan(version, [], empty, 0, true);
          case Chunked(texts) => estimate := estimate + |texts|;
        }
      }
      assert codes[..|codes|] == codes;
      if estimate == 0 { return Plan(version, [], empty, 0, true); }
      return Plan(version, codes, empty, estimate, false);
    }

    method RetryUpload(id: UploadId) returns (retried: bool)
      requires id in uploads
      modifies this
      ensures View() == Corpus.Retry(old(View()), id)
      ensures retried <==> old(uploads[id].status) == Failed
    {
      if uploads[id].status != Failed { return false; }
      uploads := uploads[id := uploads[id].(status := Queued, chunkCount := 0, indexed := [], skipped := [])];
      calls := calls + multiset{id};
      return true;
    }

    /** queue_knowledge_corpus_upload, called after the commit. */
    method QueueUpload(id: UploadId, reachable: bool)
      requires id in calls
      modifies this
      ensures View() == Corpus.RunCall(old(View()), id, reachable)
    {
      calls := calls - multiset{id};
      if !reachable {
        if id in uploads { uploads := uploads[id := uploads[id].(status := Failed)]; }
        return;
      }
      if id in jobs && jobs[id] != Over { return; }
      jobs := jobs[id := Waiting];
    }

    method FailUpload(w: WorkerId)
      requires w in workers && workers[w] in uploads
      modifies this
      ensures View() == Corpus.Fail(old(View()), w)
    {
      var id := workers[w];
      uploads := uploads[id := uploads[id].(status := Failed)];
      workers := workers - {w};
    }

    /** run_knowledge_corpus_upload after its claim. */
    method ProcessUpload(w: WorkerId, chunker: SectionCode -> SectionResult)
      requires w in workers && workers[w] in uploads
      modifies this
      ensures View() == Corpus.Finish(old(View()), w, chunker)
    {
      var id := workers[w];
      var upload := uploads[id];
      var result := IndexSections(upload.version, UploadCodes(upload), chunker);
      if result == None {
        FailUpload(w);
        return;
      }
      var drafts := result.value.drafts;
      if drafts == [] || !Distinct(drafts) {
        FailUpload(w);
        return;
      }
      workers := workers - {w};
      if upload.status != Processing { return; }
      rows := Replaced(rows, upload, ToSet(drafts));
      uploads := uploads[id := upload.(status := Succeeded, chunkCount := |drafts|,
                                       indexed := result.value.indexed, skipped := result.value.skipped)];
      produced := produced[id := ToSet(drafts)];
    }

    method ClaimUpload(w: WorkerId, id: UploadId) returns (claimed: bool)
      requires w !in workers && id in uploads
      modifies this
      ensures View() == Corpus.Claim(old(View()), w, id)
      ensures claimed <==> w in workers
    {
      jobs := jobs[id := Started];
      if uploads[id].status != Queued && uploads[id].status != Failed { return false; }
      uploads := uploads[id := uploads[id].(status := Processing)];
      workers := workers[w := id];
      return true;
    }
  }

  /** A scanned plan that is enqueued before anything else happens is enqueued whole: the scan and
    * the re-check under the lock agree on what is free. */
  lemma {:induction false} FreshPlanEnqueuedWhole(st: State, hash: Hash, codes: seq<SectionCode>)
    requires forall c :: c in codes ==> !Reserved(st, hash, c) && !Indexed(st, hash, c)
    ensures Unclaimed(st, hash, codes) == codes
  {
    if codes != [] {
      FreshPlanEnqueuedWhole(st, hash, codes[..|codes| - 1]);
      assert codes == codes[..|codes| - 1] + [codes[|codes| - 1]];
    }
  }
}
