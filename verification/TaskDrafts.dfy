/** The draft pointer of a live task always leads to a stored file. */
module TaskDrafts {
  import opened Prelude
  import opened TaskModel

  // The file a drafting worker is about to publish, and the file it will remove.
  function Unpublished(phase: Phase): Option<FileId> {
    match phase case DraftStored(_, stored) => Some(stored) case _ => None
  }

  function Doomed(phase: Phase): Option<FileId> {
    match phase case DraftSwapped(was, _) => was case _ => None
  }

  function Remembered(phase: Phase): Option<FileId> {
    match phase
    case DraftRead(was) => was
    case DraftStored(was, _) => was
    case DraftSwapped(was, _) => was
    case _ => None
  }

  function Touched(phase: Phase): Option<FileId> {
    match phase
    case DraftStored(_, stored) => Some(stored)
    case DraftSwapped(_, stored) => Some(stored)
    case _ => None
  }

  predicate Before(file: Option<FileId>, next: FileId) {
    file.Some? ==> file.value < next
  }

  predicate FilesKept(st: State) {
    && Before(st.task.draft, st.nextFile)
    && (forall f <- st.files :: f < st.nextFile)
    && (!st.task.deleted && st.task.draft.Some? ==> st.task.draft.value in st.files)
  }

  /** A file waiting to be published is in place and not yet the draft; a worker about to remove a
    * file no longer holds the published one. */
  predicate WorkerKept(st: State, phase: Phase) {
    && Before(Remembered(phase), st.nextFile) && Before(Touched(phase), st.nextFile)
    && (Unpublished(phase).Some? ==>
          && Unpublished(phase).value in st.files
          && st.task.draft != Unpublished(phase)
          && Remembered(phase) != Unpublished(phase))
    && (Doomed(phase).Some? ==> st.task.draft != Doomed(phase))
  }

  /** No other worker knows of a file waiting to be published. */
  predicate Apart(p: Phase, q: Phase) {
    Unpublished(p).Some? ==> Remembered(q) != Unpublished(p) && Unpublished(q) != Unpublished(p)
  }

  ghost predicate DraftsKept(st: State) {
    && FilesKept(st)
    && (forall w <- st.workers :: WorkerKept(st, st.workers[w].phase))
    && (forall v, w :: v in st.workers && w in st.workers && v != w ==>
          Apart(st.workers[v].phase, st.workers[w].phase))
  }

  predicate SameDraft(a: State, b: State) {
    && b.task.draft == a.task.draft && b.task.deleted == a.task.deleted
    && b.files == a.files && b.nextFile == a.nextFile
  }

  predicate NoDraftInHand(phase: Phase) {
    phase == Claiming || phase == Running || phase == Reporting
  }

  /** Anything that leaves draft and files alone and gives no worker a draft in hand. */
  lemma UnrelatedKeepsDrafts(a: State, b: State)
    requires DraftsKept(a) && SameDraft(a, b)
    requires forall w <- b.workers ::
               NoDraftInHand(b.workers[w].phase) || (w in a.workers && b.workers[w] == a.workers[w])
    ensures DraftsKept(b)
  {
    forall v, w | v in b.workers && w in b.workers && v != w
      ensures Apart(b.workers[v].phase, b.workers[w].phase) {
      if !NoDraftInHand(b.workers[v].phase) && !NoDraftInHand(b.workers[w].phase) {
        assert v in a.workers && w in a.workers;
      }
    }
  }

  lemma RetryKeepsDraft(cfg: Config, st: State, evidence: Evidence)
    ensures var after := Retry(cfg, st, evidence).0; SameDraft(st, after) && after.workers == st.workers
  {
  }

  lemma ConfirmKeepsDraft(cfg: Config, st: State, items: seq<Submission>, evidence: Evidence)
    ensures var after := Confirm(cfg, st, items, evidence).0; SameDraft(st, after) && after.workers == st.workers
  {
  }

  lemma FactRequestKeepsDraft(cfg: Config, st: State, request: Request)
    requires OnFacts(request) && request != RDelete
    ensures var after := Serve(cfg, st, request).0; SameDraft(st, after) && after.workers == st.workers
  {
    match request
    case RRetry(evidence) => RetryKeepsDraft(cfg, st, evidence);
    case RConfirm(items, evidence) => ConfirmKeepsDraft(cfg, st, items, evidence);
    case _ =>
  }

  lemma EditKeepsDraft(st: State, code: Code, content: string, input: StructuredInput, expected: nat)
    ensures var after := Edit(st, code, content, input, expected).0; SameDraft(st, after) && after.workers == st.workers
  {
  }

  lemma RegenerateKeepsDraft(st: State, code: Code, instruction: string, chunks: seq<string>)
    ensures var after := Regenerate(st, code, instruction, chunks).0; SameDraft(st, after) && after.workers == st.workers
  {
  }

  lemma ExportKeepsDraft(cfg: Config, st: State, key: string, world: ExportWorld)
    ensures var after := Export(cfg, st, key, world).0; SameDraft(st, after) && after.workers == st.workers
  {
  }

  lemma SectionRequestKeepsDraft(cfg: Config, st: State, request: Request)
    requires !OnFacts(request)
    ensures var after := Serve(cfg, st, request).0; SameDraft(st, after) && after.workers == st.workers
  {
    match request
    case REdit(code, content, input, expected) => EditKeepsDraft(st, code, content, input, expected);
    case RRegenerate(code, instruction, chunks) => RegenerateKeepsDraft(st, code, instruction, chunks);
    case RExport(key, world) => ExportKeepsDraft(cfg, st, key, world);
    case _ =>
  }

  lemma RequestKeepsDraft(cfg: Config, st: State, request: Request)
    requires request != RDelete
    ensures var after := Serve(cfg, st, request).0; SameDraft(st, after) && after.workers == st.workers
  {
    if OnFacts(request) {
      FactRequestKeepsDraft(cfg, st, request);
    } else {
      SectionRequestKeepsDraft(cfg, st, request);
    }
  }

  lemma RequestKeepsDrafts(cfg: Config, st: State, request: Request)
    requires DraftsKept(st)
    ensures DraftsKept(Serve(cfg, st, request).0)
  {
    match request
    case RDelete =>
    case _ =>
      RequestKeepsDraft(cfg, st, request);
      UnrelatedKeepsDrafts(st, Serve(cfg, st, request).0);
  }

  /** One worker moves on: the others are checked against its new phase. */
  lemma MovedKeepsDrafts(a: State, b: State, w: WorkerId)
    requires DraftsKept(a) && FilesKept(b) && w in a.workers && b.workers.Keys == a.workers.Keys
    requires forall v <- a.workers :: v != w ==> b.workers[v] == a.workers[v] && WorkerKept(b, a.workers[v].phase)
    requires WorkerKept(b, b.workers[w].phase)
    requires forall v <- a.workers :: v != w ==>
               && Apart(b.workers[w].phase, a.workers[v].phase)
               && Apart(a.workers[v].phase, b.workers[w].phase)
    ensures DraftsKept(b)
  {
  }

  lemma ReadKeepsDrafts(st: State, w: WorkerId)
    requires DraftsKept(st) && InPhase(st, w, Generate, Running)
    ensures DraftsKept(DraftStep(st, w))
  {
    var after := DraftStep(st, w);
    if after != st {
      assert after.workers == st.workers[w := Worker(Generate, DraftRead(st.task.draft))];
      MovedKeepsDrafts(st, after, w);
    }
  }

  lemma StoreKeepsDrafts(st: State, w: WorkerId, was: Option<FileId>)
    requires DraftsKept(st) && InPhase(st, w, Generate, DraftRead(was))
    ensures DraftsKept(DraftStep(st, w))
  {
    var after := DraftStep(st, w);
    assert after.workers == st.workers[w := Worker(Generate, DraftStored(was, st.nextFile))];
    assert WorkerKept(st, DraftRead(was));
    MovedKeepsDrafts(st, after, w);
  }

  // The stored file becomes the draft, or is removed again: either way the others do not know it.
  lemma StoredIsUnknown(st: State, w: WorkerId, v: WorkerId, was: Option<FileId>, stored: FileId)
    requires DraftsKept(st) && InPhase(st, w, Generate, DraftStored(was, stored)) && v in st.workers && v != w
    ensures Remembered(st.workers[v].phase) != Some(stored) && Unpublished(st.workers[v].phase) != Some(stored)
    ensures WorkerKept(st, st.workers[v].phase)
  {
    assert Apart(st.workers[w].phase, st.workers[v].phase);
  }

  lemma PublishKeepsDrafts(st: State, w: WorkerId, was: Option<FileId>, stored: FileId, after: State)
    requires DraftsKept(st) && InPhase(st, w, Generate, DraftStored(was, stored))
    requires after.task.draft == Some(stored) && after.files == st.files && after.nextFile == st.nextFile
    requires after.workers == st.workers[w := Worker(Generate, DraftSwapped(was, stored))]
    ensures DraftsKept(after)
  {
    assert WorkerKept(st, DraftStored(was, stored));
    forall v | v in st.workers && v != w
      ensures WorkerKept(after, st.workers[v].phase)
      ensures Apart(st.workers[v].phase, after.workers[w].phase)
    {
      StoredIsUnknown(st, w, v, was, stored);
      assert Apart(st.workers[v].phase, st.workers[w].phase);
    }
    MovedKeepsDrafts(st, after, w);
  }

  lemma DiscardKeepsDrafts(st: State, w: WorkerId, was: Option<FileId>, stored: FileId, after: State)
    requires DraftsKept(st) && InPhase(st, w, Generate, DraftStored(was, stored))
    requires after.task == st.task && after.files == st.files - {stored} && after.nextFile == st.nextFile
    requires after.workers == st.workers[w := Worker(Generate, Running)]
    ensures DraftsKept(after)
  {
    assert WorkerKept(st, DraftStored(was, stored));
    forall v | v in st.workers && v != w ensures WorkerKept(after, st.workers[v].phase) {
      StoredIsUnknown(st, w, v, was, stored);
    }
    MovedKeepsDrafts(st, after, w);
  }

  lemma SwapKeepsDrafts(st: State, w: WorkerId, was: Option<FileId>, stored: FileId)
    requires DraftsKept(st) && InPhase(st, w, Generate, DraftStored(was, stored))
    ensures DraftsKept(DraftStep(st, w))
  {
    if st.task.status == Generating && !st.task.deleted {
      PublishKeepsDrafts(st, w, was, stored, DraftStep(st, w));
    } else {
      DiscardKeepsDrafts(st, w, was, stored, DraftStep(st, w));
    }
  }

  lemma RemoveKeepsDrafts(st: State, w: WorkerId, was: Option<FileId>, stored: FileId)
    requires DraftsKept(st) && InPhase(st, w, Generate, DraftSwapped(was, stored))
    ensures DraftsKept(DraftStep(st, w))
  {
    var after := DraftStep(st, w);
    assert WorkerKept(st, DraftSwapped(was, stored));
    forall v | v in st.workers && v != w ensures WorkerKept(after, st.workers[v].phase) {
      assert Apart(st.workers[v].phase, st.workers[w].phase);
      assert WorkerKept(st, st.workers[v].phase);
    }
    assert after.workers == st.workers[w := Worker(Generate, Running)];
    MovedKeepsDrafts(st, after, w);
  }

  lemma DraftStepKeepsDrafts(st: State, w: WorkerId)
    requires DraftsKept(st)
    ensures DraftsKept(DraftStep(st, w))
  {
    if w in st.workers && st.workers[w].kind == Generate {
      match st.workers[w].phase
      case Running => ReadKeepsDrafts(st, w);
      case DraftRead(was) => StoreKeepsDrafts(st, w, was);
      case DraftStored(was, stored) => SwapKeepsDrafts(st, w, was, stored);
      case DraftSwapped(was, stored) => RemoveKeepsDrafts(st, w, was, stored);
      case _ =>
    }
  }

  ghost predicate NothingInHand(a: State, b: State) {
    SameDraft(a, b) && forall v <- b.workers ::
      NoDraftInHand(b.workers[v].phase) || (v in a.workers && b.workers[v] == a.workers[v])
  }

  lemma FailureKeepsDraft(cfg: Config, st: State, w: WorkerId, f: Failure)
    ensures NothingInHand(st, WorkerFail(cfg, st, w, f))
  {
  }

  lemma ClaimKeepsDraft(st: State, w: WorkerId)
    ensures NothingInHand(st, Claim(st, w))
  {
  }

  lemma SaveKeepsDraft(st: State, w: WorkerId, code: Code, title: string, content: string, structure: Structure,
                       issues: seq<Severity>)
    ensures NothingInHand(st, WorkerSave(st, w, code, title, content, structure, issues))
  {
  }

  lemma CommitsKeepDraft(st: State, w: WorkerId, proposals: seq<Fact>, conflicts: seq<string>)
    ensures NothingInHand(st, CommitGeneration(st, w)) && NothingInHand(st, CommitExtraction(st, w, proposals, conflicts))
  {
  }

  lemma OtherActionsKeepDraft(cfg: Config, st: State, w: WorkerId, action: Action)
    requires action != ADraft
    ensures NothingInHand(st, Act(cfg, st, w, action))
  {
    match action
    case AFail(f) => FailureKeepsDraft(cfg, st, w, f);
    case AClaim => ClaimKeepsDraft(st, w);
    case ASave(code, title, content, structure, issues) => SaveKeepsDraft(st, w, code, title, content, structure, issues);
    case ACommitGeneration => CommitsKeepDraft(st, w, [], []);
    case ACommitExtraction(proposals, conflicts) => CommitsKeepDraft(st, w, proposals, conflicts);
    case _ =>
  }

  lemma ActionKeepsDrafts(cfg: Config, st: State, w: WorkerId, action: Action)
    requires DraftsKept(st)
    ensures DraftsKept(Act(cfg, st, w, action))
  {
    match action
    case ADraft => DraftStepKeepsDrafts(st, w);
    case _ =>
      OtherActionsKeepDraft(cfg, st, w, action);
      UnrelatedKeepsDrafts(st, Act(cfg, st, w, action));
  }

  lemma QueueKeepsDraft(st: State, step: Step)
    requires !step.User? && !step.Work?
    ensures NothingInHand(st, Around(st, step))
  {
    AroundMoves(st, step);
  }

  lemma QueueKeepsDrafts(cfg: Config, st: State, step: Step)
    requires DraftsKept(st) && !step.User? && !step.Work?
    ensures DraftsKept(Around(st, step))
  {
    QueueKeepsDraft(st, step);
    UnrelatedKeepsDrafts(st, Around(st, step));
  }

  lemma StepKeepsDrafts(cfg: Config, st: State, step: Step)
    requires DraftsKept(st)
    ensures DraftsKept(Next(cfg, st, step))
  {
    match step
    case User(request) => RequestKeepsDrafts(cfg, st, request);
    case Work(w, action) => ActionKeepsDrafts(cfg, st, w, action);
    case _ => QueueKeepsDrafts(cfg, st, step);
  }

  lemma {:induction false} RunKeepsDrafts(cfg: Config, st: State, steps: seq<Step>)
    requires DraftsKept(st)
    ensures DraftsKept(Run(cfg, st, steps))
    decreases |steps|
  {
    if steps != [] {
      StepKeepsDrafts(cfg, st, steps[0]);
      RunKeepsDrafts(cfg, Next(cfg, st, steps[0]), steps[1..]);
    }
  }

  /** For any number of workers saving drafts at once, the pointer never dangles. */
  lemma DraftNeverDangles(cfg: Config, facts: seq<Fact>, steps: seq<Step>)
    ensures var st := Run(cfg, Fresh(cfg, facts), steps);
            !st.task.deleted && st.task.draft.Some? ==> st.task.draft.value in st.files
  {
    RunKeepsDrafts(cfg, Fresh(cfg, facts), steps);
  }
}
