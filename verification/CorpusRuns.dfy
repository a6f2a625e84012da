/** What every run of corpus steps keeps, and exactly when two uploads of one content come to share a
  * section. */
module CorpusRuns {
  import opened Prelude
  import opened Corpus

  function RowsOf(st: State, u: Upload): set<Chunk> {
    set row <- st.rows | row.version == u.version && row.code in UploadCodes(u)
  }

  predicate Shares(codes: seq<SectionCode>, u: Upload) {
    exists c :: c in codes && c in UploadCodes(u)
  }

  predicate Apart(st: State, a: Upload, b: Upload) {
    a.version in st.hashes && b.version in st.hashes && st.hashes[a.version] == st.hashes[b.version] ==>
      !Shares(UploadCodes(a), b)
  }

  /** Uploads of the same content have no section in common. */
  ghost predicate Disjoint(st: State) {
    forall a, b :: a in st.uploads && b in st.uploads && a != b ==> Apart(st, st.uploads[a], st.uploads[b])
  }

  // ---------------------------------------------------------------- what a step changes

  /** A check changes nothing but the requests, and adds at most one. */
  ghost predicate Asks(st: State, after: State, r: RequestId) {
    && after == st.(requests := after.requests)
    && forall k <- after.requests :: k == r || (k in st.requests && after.requests[k] == st.requests[k])
  }

  lemma CheckAsks(st: State, r: RequestId, hash: Hash, requested: seq<SectionCode>, newest: Option<UploadId>, folder: bool)
    ensures var after := CheckUpload(st, r, hash, requested, newest, folder);
            Asks(st, after, r) && (after == st || (r in after.requests && after.requests[r].held == {}))
  {
  }

  lemma PlanAsks(st: State, r: RequestId, version: VersionId, planned: seq<SectionCode>)
    ensures Asks(st, CheckPlan(st, r, version, planned), r)
  {
  }

  /** The run of this worker ends with rows. */
  predicate Writes(st: State, w: WorkerId, chunker: SectionCode -> SectionResult)
    requires w in st.workers && st.workers[w] in st.uploads
  {
    var u := st.uploads[st.workers[w]];
    var ix := Index(u.version, UploadCodes(u), chunker);
    u.status == Processing && ix.Some? && ix.value.drafts != [] && Distinct(ix.value.drafts)
  }

  /** A worker's last transaction writes its rows and succeeds, fails, or finds its upload taken away. */
  lemma FinishIs(st: State, w: WorkerId, chunker: SectionCode -> SectionResult)
    requires w in st.workers && st.workers[w] in st.uploads
    ensures var after := Finish(st, w, chunker);
            var u := st.uploads[st.workers[w]];
            if Writes(st, w, chunker) then
              var ix := Index(u.version, UploadCodes(u), chunker).value;
              after == PutUpload(st, st.workers[w], u.(status := Succeeded, chunkCount := |ix.drafts|,
                                                       indexed := ix.indexed, skipped := ix.skipped))
                       .(rows := Replaced(st.rows, u, ToSet(ix.drafts)), workers := st.workers - {w},
                         produced := st.produced[st.workers[w] := ToSet(ix.drafts)])
            else after == Fail(st, w) || after == Crash(st, w)
  {
  }

  lemma NoFinishIs(st: State, w: WorkerId, chunker: SectionCode -> SectionResult)
    requires w !in st.workers || st.workers[w] !in st.uploads
    ensures Finish(st, w, chunker) == st
  {
  }

  /** The upload whose row a step may change. */
  function Target(st: State, step: Step): Option<UploadId> {
    match step
    case SRetry(id) => Some(id)
    case SCall(id, _) => Some(id)
    case SClaim(_, id) => Some(id)
    case SFinish(w, _) => if w in st.workers then Some(st.workers[w]) else None
    case SFail(w) => if w in st.workers then Some(st.workers[w]) else None
    case _ => None
  }

  /** No upload comes or goes; only the target changes, but not its version or sections. */
  ghost predicate Changes(st: State, after: State, target: Option<UploadId>) {
    && (forall v <- st.hashes :: v in after.hashes && after.hashes[v] == st.hashes[v])
    && after.nextUpload == st.nextUpload && after.uploads.Keys == st.uploads.Keys
    && (forall id <- st.uploads :: Some(id) != target ==> after.uploads[id] == st.uploads[id])
    && (forall id <- st.uploads :: after.uploads[id].version == st.uploads[id].version
                                   && UploadCodes(after.uploads[id]) == UploadCodes(st.uploads[id]))
  }

  lemma PutChanges(st: State, after: State, id: UploadId, u: Upload)
    requires id in st.uploads && after.uploads == st.uploads[id := u]
    requires after.hashes == st.hashes && after.nextUpload == st.nextUpload
    requires u.version == st.uploads[id].version && UploadCodes(u) == UploadCodes(st.uploads[id])
    ensures Changes(st, after, Some(id))
  {
  }

  lemma FinishChanges(st: State, w: WorkerId, chunker: SectionCode -> SectionResult)
    ensures Changes(st, Finish(st, w, chunker), Target(st, SFinish(w, chunker)))
  {
    if w in st.workers && st.workers[w] in st.uploads {
      FinishIs(st, w, chunker);
      if Writes(st, w, chunker) {
        var id := st.workers[w];
        PutChanges(st, Finish(st, w, chunker), id, Finish(st, w, chunker).uploads[id]);
      } else {
        FailChanges(st, w);
      }
    } else {
      NoFinishIs(st, w, chunker);
    }
  }

  lemma CallChanges(st: State, id: UploadId, reachable: bool)
    ensures Changes(st, RunCall(st, id, reachable), Some(id))
  {
    if id in st.uploads {
      PutChanges(st, RunCall(st, id, reachable), id, RunCall(st, id, reachable).uploads[id]);
    }
  }

  lemma RetryChanges(st: State, id: UploadId)
    ensures Changes(st, Retry(st, id), Some(id))
  {
    if id in st.uploads {
      PutChanges(st, Retry(st, id), id, Retry(st, id).uploads[id]);
    }
  }

  lemma ClaimChanges(st: State, w: WorkerId, id: UploadId)
    ensures Changes(st, Claim(st, w, id), Some(id))
  {
    if id in st.uploads {
      PutChanges(st, Claim(st, w, id), id, Claim(st, w, id).uploads[id]);
    }
  }

  lemma FailChanges(st: State, w: WorkerId)
    ensures Changes(st, Fail(st, w), Target(st, SFail(w)))
  {
    if w in st.workers && st.workers[w] in st.uploads {
      var id := st.workers[w];
      PutChanges(st, Fail(st, w), id, Fail(st, w).uploads[id]);
    }
  }

  lemma NoUploadChanges(st: State, step: Step)
    requires step.SCheck? || step.SPlan? || step.SDrop?
    ensures Next(st, step).uploads == st.uploads && Changes(st, Next(st, step), None)
  {
    match step
    case SCheck(r, hash, requested, newest, folder) => CheckAsks(st, r, hash, requested, newest, folder);
    case SPlan(r, version, planned) => PlanAsks(st, r, version, planned);
    case _ =>
  }

  lemma ProcessChanges(st: State, step: Step)
    requires !Creates(step)
    ensures Changes(st, Process(st, step), Target(st, step))
  {
    match step
    case SRetry(id) => RetryChanges(st, id);
    case SCall(id, reachable) => CallChanges(st, id, reachable);
    case SClaim(w, id) => ClaimChanges(st, w, id);
    case SFinish(w, chunker) => FinishChanges(st, w, chunker);
    case SFail(w) => FailChanges(st, w);
    case _ =>
  }

  lemma StepChanges(st: State, step: Step)
    requires !step.SInsert?
    ensures Changes(st, Next(st, step), Target(st, step))
  {
    if Creates(step) {
      NoUploadChanges(st, step);
    } else {
      ProcessChanges(st, step);
    }
  }

  /** Rows, results and requests stay, and no upload succeeds. */
  ghost predicate Quiet(st: State, after: State) {
    && after.rows == st.rows && after.produced == st.produced
    && (forall r <- after.requests :: r in st.requests && after.requests[r] == st.requests[r])
    && (forall w <- after.workers :: w in st.workers && after.workers[w] == st.workers[w])
    && (forall id <- st.uploads :: id in after.uploads && after.uploads[id].status == Succeeded ==>
                                     after.uploads[id] == st.uploads[id])
  }

  lemma CallIsQuiet(st: State, id: UploadId, reachable: bool)
    ensures Quiet(st, RunCall(st, id, reachable))
  {
  }

  lemma RetryIsQuiet(st: State, id: UploadId)
    ensures Quiet(st, Retry(st, id))
  {
  }

  lemma FailIsQuiet(st: State, w: WorkerId)
    ensures Quiet(st, Fail(st, w)) && Quiet(st, Crash(st, w))
  {
  }

  lemma StepIsQuiet(st: State, step: Step)
    requires !Creates(step) && !step.SFinish? && !step.SClaim?
    ensures Quiet(st, Process(st, step))
  {
    match step
    case SRetry(id) => RetryIsQuiet(st, id);
    case SCall(id, reachable) => CallIsQuiet(st, id, reachable);
    case SFail(w) => FailIsQuiet(st, w);
    case SCrash(w) => FailIsQuiet(st, w);
    case _ =>
  }

  predicate CanClaim(st: State, w: WorkerId, id: UploadId) {
    w !in st.workers && id in st.uploads && (st.uploads[id].status == Queued || st.uploads[id].status == Failed)
  }

  lemma ClaimTakes(st: State, w: WorkerId, id: UploadId)
    requires CanClaim(st, w, id)
    ensures Claim(st, w, id)
            == PutUpload(PutJob(st, id, Started), id, st.uploads[id].(status := Processing)).(workers := st.workers[w := id])
  {
  }

  lemma ClaimSkips(st: State, w: WorkerId, id: UploadId)
    requires !CanClaim(st, w, id)
    ensures Claim(st, w, id) == st || Claim(st, w, id) == PutJob(st, id, Started)
  {
  }

  lemma ClaimIs(st: State, w: WorkerId, id: UploadId)
    ensures var after := Claim(st, w, id);
            && after.rows == st.rows && after.produced == st.produced && after.requests == st.requests
            && after.workers == (if CanClaim(st, w, id) then st.workers[w := id] else st.workers)
            && after.uploads == (if CanClaim(st, w, id) then st.uploads[id := st.uploads[id].(status := Processing)]
                                 else st.uploads)
  {
    if CanClaim(st, w, id) {
      ClaimTakes(st, w, id);
    } else {
      ClaimSkips(st, w, id);
    }
  }

  // ---------------------------------------------------------------- what an insert adds

  /** The step inserts an upload. */
  predicate Inserts(st: State, step: Step) {
    step.SInsert? && step.r in st.requests && st.requests[step.r].codes != []
    && (st.requests[step.r].source.NewFile? ==> step.file.Some? && step.file.value !in st.hashes)
  }

  /** The version it is inserted for. */
  function InsertedFor(st: State, r: RequestId, file: Option<VersionId>): VersionId
    requires Inserts(st, SInsert(r, file))
  {
    match st.requests[r].source
    case Stored(version) => version
    case NewFile => file.value
  }

  lemma InsertIsNew(st: State, r: RequestId, file: Option<VersionId>)
    requires Inserts(st, SInsert(r, file))
    ensures var q := st.requests[r];
            var version := InsertedFor(st, r, file);
            var hashes := if q.source.NewFile? then st.hashes[version := q.hash] else st.hashes;
            Insert(st, r, file)
            == NewUpload(st.(requests := st.requests - {r}, hashes := hashes), version, q.codes, q.fallback)
  {
    match st.requests[r].source
    case Stored(_) =>
    case NewFile =>
  }

  lemma InsertIs(st: State, r: RequestId, file: Option<VersionId>)
    requires Inserts(st, SInsert(r, file))
    ensures var q := st.requests[r];
            var after := Insert(st, r, file);
            var version := InsertedFor(st, r, file);
            && after.uploads == st.uploads[st.nextUpload := Upload(version, q.codes[0], q.codes, q.fallback, Queued, 0, [], [])]
            && after.nextUpload == st.nextUpload + 1
            && after.hashes == (if q.source.NewFile? then st.hashes[version := q.hash] else st.hashes)
            && after.rows == st.rows && after.produced == st.produced && after.workers == st.workers
            && after.requests == st.requests - {r}
            && after.queue == st.queue.(calls := st.queue.calls + multiset{st.nextUpload})
  {
    InsertIsNew(st, r, file);
  }

  lemma NoInsertIs(st: State, r: RequestId, file: Option<VersionId>)
    requires !Inserts(st, SInsert(r, file))
    ensures Insert(st, r, file) == st.(requests := st.requests - {r})
  {
    if r !in st.requests {
      assert st.requests - {r} == st.requests;
    }
  }

  // ---------------------------------------------------------------- what holds in any case

  ghost predicate Tables(st: State) {
    && (forall id <- st.uploads :: id < st.nextUpload && st.uploads[id].version in st.hashes)
    && (forall row <- st.rows :: row.version in st.hashes)
    && (forall w <- st.workers :: st.workers[w] in st.uploads)
  }

  /** A waiting request shares no section with any upload it has seen. */
  ghost predicate Checked(st: State, q: Request) {
    && q.codes != [] && q.since <= st.nextUpload
    && (q.source.Stored? ==> SameContent(st, q.source.version, q.hash))
    && (forall id <- q.held :: id in st.uploads && SameContent(st, st.uploads[id].version, q.hash))
    && (forall id <- st.uploads :: id < q.since && SameContent(st, st.uploads[id].version, q.hash) ==>
          !Shares(q.codes, st.uploads[id]))
  }

  ghost predicate AllChecked(st: State) {
    forall r <- st.requests :: Checked(st, st.requests[r])
  }

  ghost predicate Base(st: State) {
    Tables(st) && AllChecked(st)
  }

  /** Uploads stay, with their version, content and sections. */
  ghost predicate Grows(st: State, after: State) {
    && (forall v <- st.hashes :: v in after.hashes && after.hashes[v] == st.hashes[v])
    && st.nextUpload <= after.nextUpload
    && (forall id <- st.uploads :: id in after.uploads && after.uploads[id].version == st.uploads[id].version
                                   && UploadCodes(after.uploads[id]) == UploadCodes(st.uploads[id]))
    && (forall id <- after.uploads :: id !in st.uploads ==> id >= st.nextUpload)
  }

  lemma StillChecked(st: State, after: State, q: Request)
    requires Tables(st) && Checked(st, q) && Grows(st, after)
    ensures Checked(after, q)
  {
    forall id | id in after.uploads && id < q.since && SameContent(after, after.uploads[id].version, q.hash)
      ensures !Shares(q.codes, after.uploads[id]) {
      assert id in st.uploads && SameContent(st, st.uploads[id].version, q.hash);
      assert !Shares(q.codes, st.uploads[id]);
    }
  }

  lemma GrowingKeepsChecked(st: State, after: State)
    requires Tables(st) && AllChecked(st) && Grows(st, after)
    requires forall r <- after.requests :: r in st.requests && after.requests[r] == st.requests[r]
    ensures AllChecked(after)
  {
    forall r | r in after.requests ensures Checked(after, after.requests[r]) {
      StillChecked(st, after, st.requests[r]);
    }
  }

  lemma NewRequestIsChecked(st: State, r: RequestId, q: Request)
    requires Base(st) && q.codes != [] && q.since == st.nextUpload && q.held <= OfContent(st, q.hash)
    requires q.source.Stored? ==> SameContent(st, q.source.version, q.hash)
    requires forall c :: c in q.codes ==> !Reserved(st, q.hash, c)
    ensures Base(PutRequest(st, r, q))
  {
    var after := PutRequest(st, r, q);
    forall id | id in st.uploads && SameContent(st, st.uploads[id].version, q.hash) ensures !Shares(q.codes, st.uploads[id]) {
      if c :| c in q.codes && c in UploadCodes(st.uploads[id]) {
        assert Reserved(st, q.hash, c);
      }
    }
    assert Checked(after, q);
    forall k | k in after.requests ensures Checked(after, after.requests[k]) {
      if k != r {
        StillChecked(st, after, st.requests[k]);
      }
    }
  }

  lemma CheckKeepsBase(st: State, r: RequestId, hash: Hash, requested: seq<SectionCode>, newest: Option<UploadId>,
                       folder: bool)
    requires Base(st)
    ensures Base(CheckUpload(st, r, hash, requested, newest, folder))
  {
    var after := CheckUpload(st, r, hash, requested, newest, folder);
    if after != st {
      NewRequestIsChecked(st, r, after.requests[r]);
    }
  }

  lemma PlanKeepsBase(st: State, r: RequestId, version: VersionId, planned: seq<SectionCode>)
    requires Base(st)
    ensures Base(CheckPlan(st, r, version, planned))
  {
    var after := CheckPlan(st, r, version, planned);
    if after != st {
      UnclaimedCodes(st, st.hashes[version], planned);
      NewRequestIsChecked(st, r, after.requests[r]);
    }
  }

  lemma StepGrows(st: State, step: Step)
    requires Tables(st)
    ensures Grows(st, Next(st, step))
  {
    if Inserts(st, step) {
      InsertIs(st, step.r, step.file);
    } else if step.SInsert? {
      NoInsertIs(st, step.r, step.file);
    } else {
      StepChanges(st, step);
    }
  }

  lemma DraftsOf(u: Upload, chunker: SectionCode -> SectionResult)
    requires Index(u.version, UploadCodes(u), chunker).Some?
    ensures var drafts := ToSet(Index(u.version, UploadCodes(u), chunker).value.drafts);
            forall d <- drafts :: d.version == u.version && d.code in UploadCodes(u)
  {
    IndexStaysInside(u.version, UploadCodes(u), chunker);
    var ix := Index(u.version, UploadCodes(u), chunker).value;
    forall d | d in ToSet(ix.drafts) ensures d.version == u.version && d.code in UploadCodes(u) {
      assert d in ix.drafts;
    }
  }

  lemma FinishKeepsRows(st: State, w: WorkerId, chunker: SectionCode -> SectionResult)
    requires Tables(st)
    ensures forall row <- Finish(st, w, chunker).rows :: row.version in st.hashes
  {
    if w in st.workers {
      var u := st.uploads[st.workers[w]];
      if Index(u.version, UploadCodes(u), chunker).Some? {
        DraftsOf(u, chunker);
      }
    }
  }

  lemma OthersKeepRows(st: State, step: Step)
    requires !step.SFinish?
    ensures Next(st, step).rows == st.rows && Next(st, step).produced == st.produced
  {
    match step
    case SCheck(r, hash, requested, newest, folder) => CheckAsks(st, r, hash, requested, newest, folder);
    case SPlan(r, version, planned) => PlanAsks(st, r, version, planned);
    case SInsert(r, file) => InsertKeepsRows(st, r, file);
    case SClaim(w, id) => ClaimIs(st, w, id);
    case SDrop(_) =>
    case _ => StepIsQuiet(st, step);
  }

  lemma InsertKeepsRows(st: State, r: RequestId, file: Option<VersionId>)
    ensures var after := Insert(st, r, file);
            after.rows == st.rows && after.produced == st.produced && after.workers == st.workers
            && after.requests == st.requests - {r}
  {
    if Inserts(st, SInsert(r, file)) {
      InsertIs(st, r, file);
    } else {
      NoInsertIs(st, r, file);
    }
  }

  lemma WorkersAreKept(st: State, step: Step)
    requires !step.SClaim? && Tables(st)
    ensures forall w <- Next(st, step).workers :: w in st.workers && Next(st, step).workers[w] == st.workers[w]
  {
    match step
    case SCheck(r, hash, requested, newest, folder) => CheckAsks(st, r, hash, requested, newest, folder);
    case SPlan(r, version, planned) => PlanAsks(st, r, version, planned);
    case SInsert(r, file) => InsertKeepsRows(st, r, file);
    case SFinish(w, chunker) =>
      if w in st.workers {
        FinishIs(st, w, chunker);
      }
    case SDrop(_) =>
    case _ => StepIsQuiet(st, step);
  }

  lemma InsertKeepsTables(st: State, r: RequestId, file: Option<VersionId>)
    requires Base(st)
    ensures Tables(Insert(st, r, file))
  {
    if Inserts(st, SInsert(r, file)) {
      InsertIs(st, r, file);
      assert Checked(st, st.requests[r]);
    } else {
      NoInsertIs(st, r, file);
    }
  }

  lemma StepKeepsTables(st: State, step: Step)
    requires Base(st)
    ensures Tables(Next(st, step))
  {
    match step
    case SInsert(r, file) => InsertKeepsTables(st, r, file);
    case SFinish(w, chunker) =>
      FinishKeepsRows(st, w, chunker);
      StepChanges(st, step);
      WorkersAreKept(st, step);
    case SClaim(w, id) =>
      OthersKeepRows(st, step);
      StepChanges(st, step);
      ClaimIs(st, w, id);
    case _ =>
      OthersKeepRows(st, step);
      StepChanges(st, step);
      WorkersAreKept(st, step);
  }

  lemma RequestsAreKept(st: State, step: Step)
    requires !step.SPlan? && !step.SCheck? && Tables(st)
    ensures forall r <- Next(st, step).requests :: r in st.requests && Next(st, step).requests[r] == st.requests[r]
  {
    match step
    case SInsert(r, file) => InsertKeepsRows(st, r, file);
    case SFinish(w, chunker) =>
      if w in st.workers {
        FinishIs(st, w, chunker);
      }
    case SClaim(w, id) => ClaimIs(st, w, id);
    case SDrop(_) =>
    case _ => StepIsQuiet(st, step);
  }

  lemma StepKeepsBase(st: State, step: Step)
    requires Base(st)
    ensures Base(Next(st, step))
  {
    match step
    case SCheck(r, hash, requested, newest, folder) => CheckKeepsBase(st, r, hash, requested, newest, folder);
    case SPlan(r, version, planned) => PlanKeepsBase(st, r, version, planned);
    case _ =>
      StepKeepsTables(st, step);
      StepGrows(st, step);
      RequestsAreKept(st, step);
      GrowingKeepsChecked(st, Next(st, step));
  }

  lemma {:induction false} RunKeepsBase(st: State, steps: seq<Step>)
    requires Base(st)
    ensures Base(Run(st, steps))
    decreases |steps|
  {
    if steps != [] {
      StepKeepsBase(st, steps[0]);
      RunKeepsBase(Next(st, steps[0]), steps[1..]);
    }
  }

  // ---------------------------------------------------------------- being overtaken

  /** An upload of the same content with a section of this request was inserted after its check. */
  predicate Overtaken(st: State, r: RequestId) {
    && r in st.requests
    && exists id :: id in st.uploads && st.requests[r].since <= id
                    && SameContent(st, st.uploads[id].version, st.requests[r].hash)
                    && Shares(st.requests[r].codes, st.uploads[id])
  }

  ghost predicate NeverOvertaken(st: State, steps: seq<Step>)
    decreases |steps|
  {
    steps == [] || (!(Inserts(st, steps[0]) && Overtaken(st, steps[0].r)) && NeverOvertaken(Next(st, steps[0]), steps[1..]))
  }

  lemma InsertedUpload(st: State, step: Step)
    requires Base(st) && Inserts(st, step)
    ensures var after := Next(st, step);
            var q := st.requests[step.r];
            && after.uploads.Keys == st.uploads.Keys + {st.nextUpload} && st.nextUpload !in st.uploads
            && UploadCodes(after.uploads[st.nextUpload]) == q.codes
            && SameContent(after, after.uploads[st.nextUpload].version, q.hash)
            && (forall id <- st.uploads :: after.uploads[id] == st.uploads[id])
  {
    InsertIs(st, step.r, step.file);
    assert Checked(st, st.requests[step.r]);
  }

  lemma NothingInserted(st: State, step: Step)
    requires !Inserts(st, step)
    ensures Next(st, step).uploads.Keys == st.uploads.Keys
  {
    if step.SInsert? {
      NoInsertIs(st, step.r, step.file);
    } else {
      StepChanges(st, step);
    }
  }

  /** One insert keeps uploads of one content apart if and only if nothing has overtaken its request. */
  lemma InsertDisjoint(st: State, step: Step)
    requires Base(st) && Disjoint(st) && Inserts(st, step)
    ensures Disjoint(Next(st, step)) <==> !Overtaken(st, step.r)
  {
    var after := Next(st, step);
    var q := st.requests[step.r];
    var fresh_ := st.nextUpload;
    InsertedUpload(st, step);
    StepGrows(st, step);
    assert Checked(st, q);
    if Overtaken(st, step.r) {
      var id :| id in st.uploads && q.since <= id && SameContent(st, st.uploads[id].version, q.hash)
                && Shares(q.codes, st.uploads[id]);
      assert !Apart(after, after.uploads[fresh_], after.uploads[id]);
    } else {
      forall a, b | a in after.uploads && b in after.uploads && a != b
        ensures Apart(after, after.uploads[a], after.uploads[b]) {
        if a != fresh_ && b != fresh_ {
          assert Apart(st, st.uploads[a], st.uploads[b]);
        } else {
          var id := if a == fresh_ then b else a;
          SeenOrLater(st, after, q, id);
          if SameContent(after, st.uploads[id].version, q.hash) {
            SharesBoth(q.codes, after.uploads[fresh_], st.uploads[id]);
          }
        }
      }
    }
  }

  lemma SeenOrLater(st: State, after: State, q: Request, id: UploadId)
    requires Tables(st) && Grows(st, after) && Checked(st, q) && id in st.uploads
    requires !exists k :: k in st.uploads && q.since <= k && SameContent(st, st.uploads[k].version, q.hash)
                          && Shares(q.codes, st.uploads[k])
    ensures SameContent(after, st.uploads[id].version, q.hash) ==> !Shares(q.codes, st.uploads[id])
  {
  }

  lemma SharesBoth(codes: seq<SectionCode>, a: Upload, b: Upload)
    requires UploadCodes(a) == codes && !Shares(codes, b)
    ensures !Shares(UploadCodes(a), b) && !Shares(UploadCodes(b), a)
  {
    if c :| c in UploadCodes(b) && c in UploadCodes(a) {
      assert Shares(codes, b);
    }
  }

  lemma NoInsertDisjoint(st: State, step: Step)
    requires Base(st) && !Inserts(st, step)
    ensures Disjoint(st) <==> Disjoint(Next(st, step))
  {
    var after := Next(st, step);
    NothingInserted(st, step);
    StepGrows(st, step);
    forall a, b | a in st.uploads && b in st.uploads && a != b
      ensures Apart(after, after.uploads[a], after.uploads[b]) <==> Apart(st, st.uploads[a], st.uploads[b]) {
    }
  }

  lemma StaysShared(st: State, step: Step)
    requires Base(st) && !Disjoint(st)
    ensures !Disjoint(Next(st, step))
  {
    var after := Next(st, step);
    StepGrows(st, step);
    var a, b :| a in st.uploads && b in st.uploads && a != b && !Apart(st, st.uploads[a], st.uploads[b]);
    assert !Apart(after, after.uploads[a], after.uploads[b]);
  }

  lemma {:induction false} RunStaysShared(st: State, steps: seq<Step>)
    requires Base(st) && !Disjoint(st)
    ensures !Disjoint(Run(st, steps))
    decreases |steps|
  {
    if steps != [] {
      StaysShared(st, steps[0]);
      StepKeepsBase(st, steps[0]);
      RunStaysShared(Next(st, steps[0]), steps[1..]);
    }
  }

  lemma {:induction false} RunDisjoint(st: State, steps: seq<Step>)
    requires Base(st) && Disjoint(st)
    ensures Disjoint(Run(st, steps)) <==> NeverOvertaken(st, steps)
    decreases |steps|
  {
    if steps != [] {
      var next := Next(st, steps[0]);
      StepKeepsBase(st, steps[0]);
      if Inserts(st, steps[0]) {
        InsertDisjoint(st, steps[0]);
      } else {
        NoInsertDisjoint(st, steps[0]);
      }
      if Disjoint(next) {
        RunDisjoint(next, steps[1..]);
      } else {
        RunStaysShared(next, steps[1..]);
      }
    }
  }

  /** Over any run of both creation paths and any workers: uploads of one content have disjoint sections
    * if and only if no request inserts its upload after an overlapping upload of the same content was
    * inserted behind its check. */
  lemma SectionsSharedIffOvertaken(steps: seq<Step>)
    ensures Disjoint(Run(EMPTY, steps)) <==> NeverOvertaken(EMPTY, steps)
  {
    RunDisjoint(EMPTY, steps);
  }

  // ---------------------------------------------------------------- the locks of an enqueue

  /** Of two plans of one content between check and insert, at least one found no upload to lock. */
  ghost predicate PlansExclude(st: State) {
    forall p, q :: p in st.requests && q in st.requests && p != q && st.requests[p].hash == st.requests[q].hash ==>
      st.requests[p].held == {} || st.requests[q].held == {}
  }

  lemma FewerPlans(st: State, after: State)
    requires PlansExclude(st)
    requires forall r <- after.requests :: after.requests[r].held == {} || (r in st.requests && after.requests[r] == st.requests[r])
    ensures PlansExclude(after)
  {
  }

  lemma StepKeepsPlans(st: State, step: Step)
    requires Base(st) && PlansExclude(st)
    ensures PlansExclude(Next(st, step))
  {
    match step
    case SPlan(r, version, planned) => PlanKeepsPlans(st, r, version, planned);
    case SCheck(r, hash, requested, newest, folder) =>
      CheckAsks(st, r, hash, requested, newest, folder);
      FewerPlans(st, Next(st, step));
    case _ =>
      RequestsAreKept(st, step);
      FewerPlans(st, Next(st, step));
  }

  lemma PlanKeepsPlans(st: State, r: RequestId, version: VersionId, planned: seq<SectionCode>)
    requires Base(st) && PlansExclude(st)
    ensures PlansExclude(CheckPlan(st, r, version, planned))
  {
    var after := CheckPlan(st, r, version, planned);
    if after != st {
      forall p | p in st.requests && st.requests[p].hash == st.hashes[version] ensures st.requests[p].held == {} {
        assert Checked(st, st.requests[p]);
        assert forall id :: id in st.requests[p].held ==> id in OfContent(st, st.hashes[version]);
      }
    }
  }

  lemma {:induction false} RunKeepsPlans(st: State, steps: seq<Step>)
    requires Base(st) && PlansExclude(st)
    ensures PlansExclude(Run(st, steps))
    decreases |steps|
  {
    if steps != [] {
      StepKeepsBase(st, steps[0]);
      StepKeepsPlans(st, steps[0]);
      RunKeepsPlans(Next(st, steps[0]), steps[1..]);
    }
  }

  /** The row locks keep plans of one content apart, except from a plan that found no row to lock. */
  lemma PlansAreSerial(steps: seq<Step>)
    ensures PlansExclude(Run(EMPTY, steps))
  {
    RunKeepsPlans(EMPTY, steps);
  }

  // ---------------------------------------------------------------- rows

  ghost predicate Faithful(st: State) {
    forall id <- st.uploads :: st.uploads[id].status == Succeeded ==>
      && id in st.produced && st.produced[id] != {}
      && RowsOf(st, st.uploads[id]) == st.produced[id]
  }

  /** A step that leaves rows and results alone, and lets nothing succeed. */
  lemma RowsUntouched(st: State, after: State)
    requires Faithful(st) && after.rows == st.rows && after.produced == st.produced
    requires forall id <- after.uploads :: after.uploads[id].status == Succeeded ==>
               id in st.uploads && after.uploads[id] == st.uploads[id]
    ensures Faithful(after)
  {
    forall id | id in after.uploads && after.uploads[id].status == Succeeded
      ensures id in after.produced && after.produced[id] != {} && RowsOf(after, after.uploads[id]) == after.produced[id] {
      assert RowsOf(after, after.uploads[id]) == RowsOf(st, st.uploads[id]);
    }
  }

  /** The successful run: the new rows are exactly the drafts for this upload's sections, and an
    * upload that shares no section with it loses or gains none. */
  lemma ReplacedRows(st: State, u: Upload, v: Upload, drafts: set<Chunk>)
    requires forall d <- drafts :: d.version == u.version && d.code in UploadCodes(u)
    ensures var after := st.(rows := Replaced(st.rows, u, drafts));
            && RowsOf(after, u) == drafts
            && (u.version != v.version || !Shares(UploadCodes(u), v) ==> RowsOf(after, v) == RowsOf(st, v))
  {
    if !Shares(UploadCodes(u), v) {
      assert forall c :: c in UploadCodes(v) ==> c !in UploadCodes(u);
    }
  }

  lemma SuccessKeepsFaithful(st: State, after: State, w: WorkerId, done: Upload, drafts: set<Chunk>)
    requires Base(st) && Disjoint(st) && Faithful(st) && w in st.workers && drafts != {}
    requires var u := st.uploads[st.workers[w]];
             && (forall d <- drafts :: d.version == u.version && d.code in UploadCodes(u))
             && done.version == u.version && UploadCodes(done) == UploadCodes(u)
             && after == PutUpload(st, st.workers[w], done)
                         .(rows := Replaced(st.rows, u, drafts), workers := st.workers - {w},
                           produced := st.produced[st.workers[w] := drafts])
    ensures Faithful(after)
  {
    var id := st.workers[w];
    var u := st.uploads[id];
    forall k | k in after.uploads && after.uploads[k].status == Succeeded
      ensures k in after.produced && after.produced[k] != {} && RowsOf(after, after.uploads[k]) == after.produced[k] {
      assert k != id ==> Apart(st, u, st.uploads[k]);
      ReplacedRows(st, u, st.uploads[k], drafts);
      assert RowsOf(after, after.uploads[k]) == RowsOf(st.(rows := Replaced(st.rows, u, drafts)), st.uploads[k]);
    }
  }

  lemma FinishWithoutRows(st: State, w: WorkerId, chunker: SectionCode -> SectionResult)
    requires w in st.workers ==> st.workers[w] in st.uploads && !Writes(st, w, chunker)
    ensures var after := Finish(st, w, chunker);
            && after.rows == st.rows && after.produced == st.produced && after.uploads.Keys == st.uploads.Keys
            && forall id <- st.uploads :: after.uploads[id].status == Succeeded ==> after.uploads[id] == st.uploads[id]
  {
    if w in st.workers {
      FinishIs(st, w, chunker);
    }
  }

  lemma FinishKeepsFaithful(st: State, w: WorkerId, chunker: SectionCode -> SectionResult)
    requires Base(st) && Disjoint(st) && Faithful(st)
    ensures Faithful(Finish(st, w, chunker))
  {
    var after := Finish(st, w, chunker);
    if w in st.workers && Writes(st, w, chunker) {
      var u := st.uploads[st.workers[w]];
      var ix := Index(u.version, UploadCodes(u), chunker).value;
      DraftsOf(u, chunker);
      assert ix.drafts[0] in ToSet(ix.drafts);
      FinishIs(st, w, chunker);
      SuccessKeepsFaithful(st, after, w, after.uploads[st.workers[w]], ToSet(ix.drafts));
    } else {
      FinishWithoutRows(st, w, chunker);
      RowsUntouched(st, after);
    }
  }

  lemma OthersSucceedNot(st: State, step: Step)
    requires !step.SInsert? && !step.SFinish?
    ensures forall id <- st.uploads :: id in Next(st, step).uploads && Next(st, step).uploads[id].status == Succeeded ==>
              Next(st, step).uploads[id] == st.uploads[id]
  {
    match step
    case SCheck(r, hash, requested, newest, folder) => CheckAsks(st, r, hash, requested, newest, folder);
    case SPlan(r, version, planned) => PlanAsks(st, r, version, planned);
    case SClaim(w, id) => ClaimIs(st, w, id);
    case SDrop(_) =>
    case _ => StepIsQuiet(st, step);
  }

  lemma StepKeepsFaithful(st: State, step: Step)
    requires Base(st) && Disjoint(st) && Faithful(st)
    ensures Faithful(Next(st, step))
  {
    if step.SFinish? {
      FinishKeepsFaithful(st, step.w, step.chunker);
      return;
    }
    OthersKeepRows(st, step);
    if Inserts(st, step) {
      InsertIs(st, step.r, step.file);
    } else if step.SInsert? {
      NoInsertIs(st, step.r, step.file);
    } else {
      StepChanges(st, step);
      OthersSucceedNot(st, step);
    }
    RowsUntouched(st, Next(st, step));
  }

  lemma StepStaysDisjoint(st: State, step: Step)
    requires Base(st) && Disjoint(st) && !(Inserts(st, step) && Overtaken(st, step.r))
    ensures Disjoint(Next(st, step))
  {
    if Inserts(st, step) {
      InsertDisjoint(st, step);
    } else {
      NoInsertDisjoint(st, step);
    }
  }

  lemma {:induction false} RunKeepsFaithful(st: State, steps: seq<Step>)
    requires Base(st) && Disjoint(st) && Faithful(st) && NeverOvertaken(st, steps)
    ensures Base(Run(st, steps)) && Disjoint(Run(st, steps)) && Faithful(Run(st, steps))
    decreases |steps|
  {
    if steps != [] {
      StepKeepsBase(st, steps[0]);
      StepStaysDisjoint(st, steps[0]);
      StepKeepsFaithful(st, steps[0]);
      RunKeepsFaithful(Next(st, steps[0]), steps[1..]);
    }
  }

  /** As long as no request is overtaken, the rows indexed for the sections of a succeeded upload are
    * exactly what its last successful run produced. */
  lemma IndexedRowsAreItsChunks(steps: seq<Step>, id: UploadId)
    requires NeverOvertaken(EMPTY, steps)
    requires var st := Run(EMPTY, steps); id in st.uploads && st.uploads[id].status == Succeeded
    ensures var st := Run(EMPTY, steps);
            id in st.produced && RowsOf(st, st.uploads[id]) == st.produced[id] && st.produced[id] != {}
  {
    RunKeepsFaithful(EMPTY, steps);
  }
}
