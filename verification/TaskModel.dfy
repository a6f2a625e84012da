/** One document-generation task as a state machine.
  *
  * `State` is what the database, the job queue and the file store hold for one task; every
  * function below is one transaction on it (or one step of a worker between transactions).
  * `Next` collects them, so a run is any sequence of steps: requests, any number of workers,
  * recovery sweeps and delayed queue callbacks, interleaved in any order.
  */
module TaskModel {
  import opened Prelude
  import opened Text

  type Code = string
  type WorkerId = nat
  type FileId = nat
  type DocId = nat

  // ---------------------------------------------------------------- rows

  datatype Status =
    | Draft | Extracting | NeedsConfirmation | Ready | Queued | Generating
    | ReviewRequired | PendingApproval | Approved | Exported | Failed | Cancelled

  datatype Operation = Extract | Generate

  datatype Severity = Info | Warning | Error

  // The codes of DocumentGenerationError and AgentError; NoError is the empty code.
  datatype ErrorCode =
    | NoError | InvalidTransition | ProjectArchived | NotFound | TaskStillRunning | TaskCancelled
    | PromptRequired | SourcePurposeMismatch | FactsIncomplete | FactsInvalid | FactSourceInvalid
    | FactEvidenceInvalid | SectionLocked | SectionRevisionConflict | SectionEmpty
    | SectionStructureInvalid | RequiredBlockRemoval | InstructionRequired | RagReferenceInvalid
    | SectionValidationFailed | ReviewIncomplete | SectionsIncomplete | SectionsNotLocked
    | ValidationFailed | TemplateInvalid | KeyRequired | IdempotencyConflict
    | QueueUnavailable | WorkerInterrupted | OtherError(name: string)

  datatype IssueCode = ContentUnchanged | LiteralMissing | OtherIssue(name: string)

  datatype Tool = CancelTool | QueueExtractionTool | NamedTool(name: string)

  // `value` and `locator` stand for the JSON value and the position in the source file.
  datatype Fact = Fact(field: string, value: int, source: int, locator: int)

  datatype Block = Block(key: string, required: bool)

  // The structured form of a section; `rest` stands for the fields no transaction looks into.
  datatype Structure = Structure(code: Code, paragraphs: seq<string>, blocks: seq<Block>,
                                 citations: seq<string>, rest: int)

  // `structure` is None when the stored JSON no longer validates.
  datatype Section = Section(title: string, content: string, structure: Option<Structure>,
                             citations: seq<string>, issues: seq<Severity>,
                             revision: nat, locked: bool)

  datatype Stage =
    | Initialized | Parsing | ExtractingFacts | ValidatingFacts | BuildingRiskProfile
    | SelectingClauses | RetrievingReferences | GeneratingSections | ValidatingSections
    | Rendering | Storing | Completed | OtherStage

  datatype Event = Event(sequence: nat, stage: Stage, tool: Tool, failed: bool)

  datatype Task = Task(
    status: Status, operation: Operation, progress: nat, deleted: bool,
    pending: seq<Code>, facts: seq<Fact>, conflicts: seq<string>, errorCode: ErrorCode,
    draft: Option<FileId>, output: Option<DocId>, exportKey: string, manualFill: bool,
    attempts: nat)

  // The template and the frozen conversation: constant for the life of a task.
  // `effectiveOrder` is the section order inferred from the template file, or the stored one.
  datatype Config = Config(requiredFields: seq<string>, sectionOrder: seq<Code>,
                           effectiveOrder: seq<Code>, hasPrompt: bool)

  // ---------------------------------------------------------------- workers and queue

  // Where a worker stands between its transactions. A draft is saved in four steps:
  // read the old pointer, store the new file, swap the pointer, remove the old file.
  datatype Phase =
    | Claiming
    | Running
    | DraftRead(was: Option<FileId>)
    | DraftStored(was: Option<FileId>, stored: FileId)
    | DraftSwapped(was: Option<FileId>, stored: FileId)
    | Reporting

  datatype Worker = Worker(kind: Operation, phase: Phase)

  // The job whose id is the task id. `Waiting` covers queued, deferred and scheduled.
  datatype Job = NoJob | Waiting | Started | Over

  datatype Ending = Returned | Raised | Killed

  datatype State = State(
    task: Task, sections: map<Code, Section>, events: seq<Event>, sources: set<int>,
    projectActive: bool,
    workers: map<WorkerId, Worker>, job: Job, retries: nat,
    callbacks: nat,   // on-commit calls of queue_generation_task not yet made
    stops: nat,       // on-commit calls of _finish_stopping_generation_task not yet made
    files: set<FileId>, nextFile: FileId,
    exports: seq<DocId>, nextDoc: DocId)

  datatype Outcome = Done | Refused(code: ErrorCode)

  function Fresh(cfg: Config, initialFacts: seq<Fact>): State {
    State(Task(Draft, Extract, 0, false, cfg.sectionOrder, initialFacts, [], NoError, None, None, "",
               false, 0),
          map[], [], {}, true, map[], NoJob, 0, 0, 0, {}, 0, [], 0)
  }

  function Refuse(st: State, code: ErrorCode): (State, Outcome) {
    (st, Refused(code))
  }

  function WithTask(st: State, task: Task): State {
    st.(task := task)
  }

  // ---------------------------------------------------------------- queues.py

  const QUEUE_RETRIES: nat := 2

  /** queue_generation_task: a live job is kept, anything else is replaced; when the queue
    * cannot be reached the task is marked failed whatever its status is by then. */
  function Enqueue(st: State, reachable: bool): State {
    if !reachable then
      WithTask(st, st.task.(status := Failed, errorCode := QueueUnavailable))
    else if st.job == Waiting || st.job == Started then st
    else st.(job := Waiting, retries := QUEUE_RETRIES)
  }

  function RunCallback(st: State, reachable: bool): State {
    if st.callbacks == 0 then st
    else Enqueue(st.(callbacks := st.callbacks - 1), reachable)
  }

  /** stop_generation_job: a waiting job is cancelled; a started one is only signalled. */
  function SignalStop(st: State): State {
    if st.job == Waiting then st.(job := Over) else st
  }

  /** The queue's own upkeep: a started job without a live worker is retried or failed. */
  function AbandonJob(st: State, retried: bool): State {
    if st.job != Started then st
    else if retried && st.retries > 0 then st.(job := Waiting, retries := st.retries - 1)
    else st.(job := Over)
  }

  // ---------------------------------------------------------------- workflow_events.py

  function MaxSequence(events: seq<Event>): nat {
    if events == [] then 0
    else
      var rest := MaxSequence(events[..|events| - 1]);
      var last := events[|events| - 1].sequence;
      if last > rest then last else rest
  }

  function StageProgress(operation: Operation, stage: Stage): Option<nat> {
    match (operation, stage)
    case (Extract, Initialized) => Some(10)
    case (Extract, Parsing) => Some(12)
    case (Extract, ExtractingFacts) => Some(16)
    case (Extract, ValidatingFacts) => Some(18)
    case (Extract, Completed) => Some(20)
    case (Generate, Initialized) => Some(40)
    case (Generate, Parsing) => Some(42)
    case (Generate, ValidatingFacts) => Some(45)
    case (Generate, BuildingRiskProfile) => Some(48)
    case (Generate, SelectingClauses) => Some(52)
    case (Generate, RetrievingReferences) => Some(58)
    case (Generate, GeneratingSections) => Some(68)
    case (Generate, ValidatingSections) => Some(78)
    case (Generate, Rendering) => Some(84)
    case (Generate, Storing) => Some(88)
    case (Generate, Completed) => Some(90)
    case _ => None
  }

  function Emit(st: State, stage: Stage, tool: Tool, failed: bool): (State, Outcome) {
    if st.task.status == Cancelled && tool != CancelTool then Refuse(st, TaskCancelled)
    else
      var row := Event(MaxSequence(st.events) + 1, stage, tool, failed);
      var next := StageProgress(st.task.operation, stage);
      var task := if !failed && next.Some? && next.value > st.task.progress
                  then st.task.(progress := next.value) else st.task;
      (st.(events := st.events + [row], task := task), Done)
  }

  // ---------------------------------------------------------------- services.py: facts

  predicate IsActiveStatus(s: Status) {
    s == Extracting || s == Queued || s == Generating
  }

  function AddSources(st: State, ids: set<int>, eligible: bool): (State, Outcome) {
    if !st.projectActive then Refuse(st, ProjectArchived)
    else if st.task.status != Draft then Refuse(st, InvalidTransition)
    else if !eligible then Refuse(st, SourcePurposeMismatch)
    else (st.(sources := st.sources + ids), Done)
  }

  predicate HasMaterial(cfg: Config, st: State) {
    st.sources != {} || cfg.hasPrompt
  }

  function Prepare(cfg: Config, st: State): (State, Outcome) {
    if !st.projectActive then Refuse(st, ProjectArchived)
    else if st.task.status != Draft then Refuse(st, InvalidTransition)
    else if !HasMaterial(cfg, st) then Refuse(st, PromptRequired)
    else
      var moved := WithTask(st, st.task.(status := Extracting, operation := Extract, progress := 10));
      var (logged, _) := Emit(moved, Initialized, QueueExtractionTool, false);
      (logged.(callbacks := logged.callbacks + 1), Done)
  }

  // One entry of the confirmation request. `hasLocator` and `valueValid` are what the entry
  // says about itself; a malformed entry does not even validate.
  datatype Submission =
    | Malformed
    | Wellformed(fact: Fact, hasLocator: bool, valueValid: bool)

  // What re-anchoring the facts in the source files gives.
  datatype Evidence =
    | Located(locators: seq<int>)
    | EvidenceInvalid(fields: seq<string>)
    | EvidenceTrouble(code: ErrorCode)
    | FactsUnreadable

  // USER_PROMPT_SOURCE_VERSION_ID
  const PROMPT_SOURCE := 0

  function SourceIds(cfg: Config, st: State): set<int> {
    if cfg.hasPrompt then st.sources + {PROMPT_SOURCE} else st.sources
  }

  /** The error of the first entry that is not acceptable, in request order. */
  function SubmissionError(items: seq<Submission>, sources: set<int>): Option<ErrorCode> {
    if items == [] then None
    else match items[0]
      case Malformed => Some(FactsIncomplete)
      case Wellformed(fact, hasLocator, _) =>
        if fact.source !in sources || !hasLocator then Some(FactSourceInvalid)
        else SubmissionError(items[1..], sources)
  }

  function SubmittedFacts(items: seq<Submission>): seq<Fact> {
    if items == [] then []
    else (if items[0].Wellformed? then [items[0].fact] else []) + SubmittedFacts(items[1..])
  }

  predicate HasField(facts: seq<Fact>, field: string) {
    exists i :: 0 <= i < |facts| && facts[i].field == field
  }

  predicate Complete(cfg: Config, facts: seq<Fact>) {
    forall k :: 0 <= k < |cfg.requiredFields| ==> HasField(facts, cfg.requiredFields[k])
  }

  predicate ValuesValid(cfg: Config, items: seq<Submission>) {
    forall i :: 0 <= i < |items| && items[i].Wellformed? && items[i].fact.field in cfg.requiredFields
      ==> items[i].valueValid
  }

  /** Re-anchoring replaces locators only. */
  function Relocate(facts: seq<Fact>, locators: seq<int>): seq<Fact> {
    seq(|facts|, i requires 0 <= i < |facts| =>
      if i < |locators| then facts[i].(locator := locators[i]) else facts[i])
  }

  function Confirm(cfg: Config, st: State, items: seq<Submission>, evidence: Evidence): (State, Outcome) {
    if !st.projectActive then Refuse(st, ProjectArchived)
    else if st.task.status != NeedsConfirmation then Refuse(st, InvalidTransition)
    else
      var error := SubmissionError(items, SourceIds(cfg, st));
      if error.Some? then Refuse(st, error.value)
      else
        var facts := SubmittedFacts(items);
        if !Complete(cfg, facts) then Refuse(st, FactsIncomplete)
        else if !ValuesValid(cfg, items) then Refuse(st, FactsInvalid)
        else match evidence
          case EvidenceInvalid(_) => Refuse(st, FactEvidenceInvalid)
          case EvidenceTrouble(code) => Refuse(st, code)
          case FactsUnreadable => Refuse(st, FactsIncomplete)
          case Located(locators) =>
            (WithTask(st, st.task.(facts := Relocate(facts, locators), conflicts := [],
                                   status := Ready, progress := 30, errorCode := NoError)), Done)
  }

  function RequestGeneration(st: State): (State, Outcome) {
    if !st.projectActive then Refuse(st, ProjectArchived)
    else if st.task.status != Ready then Refuse(st, InvalidTransition)
    else
      (WithTask(st, st.task.(status := Queued, operation := Generate, progress := 35, errorCode := NoError))
       .(callbacks := st.callbacks + 1), Done)
  }

  function Requeued(st: State, task: Task): State {
    var extract := task.operation == Extract;
    WithTask(st, task.(status := if extract then Extracting else Queued,
                       progress := if extract then 10 else 35, errorCode := NoError))
    .(callbacks := st.callbacks + 1)
  }

  function Retry(cfg: Config, st: State, evidence: Evidence): (State, Outcome) {
    var t := st.task;
    if !st.projectActive then Refuse(st, ProjectArchived)
    else if t.status != Failed && !(t.operation == Extract && t.status == NeedsConfirmation) then
      Refuse(st, InvalidTransition)
    else if t.operation == Generate && (t.facts == [] || !HasMaterial(cfg, st)) then
      Refuse(st, FactsIncomplete)
    else if t.operation == Generate && t.errorCode == FactEvidenceInvalid then
      match evidence
      case FactsUnreadable => Refuse(st, FactsIncomplete)
      case EvidenceTrouble(code) => Refuse(st, code)
      case EvidenceInvalid(fields) =>
        (WithTask(st, t.(status := NeedsConfirmation, progress := 20, conflicts := fields)), Done)
      case Located(locators) =>
        (Requeued(st, t.(facts := Relocate(t.facts, locators), conflicts := [])), Done)
    else (Requeued(st, t), Done)
  }

  function Stop(st: State): (State, Outcome) {
    if !IsActiveStatus(st.task.status) then Refuse(st, InvalidTransition)
    else (WithTask(st, st.task.(status := Cancelled, errorCode := NoError)).(stops := st.stops + 1), Done)
  }

  function FinishStop(st: State): State {
    if st.stops == 0 then st
    else
      var (logged, _) := Emit(st.(stops := st.stops - 1), OtherStage, CancelTool, false);
      SignalStop(logged)
  }

  /** Deleting hides the task and removes the draft file; the pointer to it stays. */
  function Delete(st: State): (State, Outcome) {
    if IsActiveStatus(st.task.status) then Refuse(st, TaskStillRunning)
    else if st.task.deleted then (st, Done)
    else
      var files := if st.task.draft.Some? then st.files - {st.task.draft.value} else st.files;
      (WithTask(st, st.task.(deleted := true)).(files := files), Done)
  }

  // ---------------------------------------------------------------- services.py: sections

  datatype StructuredInput = NoStructure | BadStructure | GivenStructure(structure: Structure)

  function SectionStructure(code: Code, s: Section): Structure {
    if s.structure.Some? then s.structure.value else Structure(code, [], [], [], 0)
  }

  predicate KeepsRequired(original: Structure, requested: Structure) {
    forall i :: 0 <= i < |original.blocks| && original.blocks[i].required && original.blocks[i].key != ""
      ==> exists j :: 0 <= j < |requested.blocks| && requested.blocks[j].key == original.blocks[i].key
  }

  function PutSection(st: State, code: Code, s: Section): State {
    st.(sections := st.sections[code := s])
  }

  function Edit(st: State, code: Code, content: string, input: StructuredInput, expected: nat): (State, Outcome) {
    if st.task.status != ReviewRequired then Refuse(st, InvalidTransition)
    else if code !in st.sections then Refuse(st, NotFound)
    else
      var s := st.sections[code];
      var clean := Strip(content);
      if s.locked then Refuse(st, SectionLocked)
      else if s.revision != expected then Refuse(st, SectionRevisionConflict)
      else if clean == "" then Refuse(st, SectionEmpty)
      else
        var original := SectionStructure(code, s);
        match input
        case BadStructure => Refuse(st, SectionStructureInvalid)
        case NoStructure =>
          (PutSection(st, code, Edited(s, clean, original)), Done)
        case GivenStructure(requested) =>
          if requested.code != code then Refuse(st, SectionStructureInvalid)
          else if !KeepsRequired(original, requested) then Refuse(st, RequiredBlockRemoval)
          else (PutSection(st, code, Edited(s, clean, requested)), Done)
  }

  function Edited(s: Section, clean: string, structure: Structure): Section {
    s.(content := clean, structure := Some(structure.(paragraphs := Paragraphs(clean))),
       citations := structure.citations, revision := s.revision + 1)
  }

  function SetLock(st: State, code: Code, locked: bool): (State, Outcome) {
    if st.task.status != ReviewRequired then Refuse(st, InvalidTransition)
    else if code !in st.sections then Refuse(st, NotFound)
    else (PutSection(st, code, st.sections[code].(locked := locked)), Done)
  }

  function Regenerate(st: State, code: Code, instruction: string, chunks: seq<string>): (State, Outcome) {
    if !st.projectActive then Refuse(st, ProjectArchived)
    else if st.task.status != ReviewRequired then Refuse(st, InvalidTransition)
    else if code !in st.sections then Refuse(st, NotFound)
    else if st.sections[code].locked then Refuse(st, SectionLocked)
    else if Strip(instruction) == "" then Refuse(st, InstructionRequired)
    else if exists i :: 0 <= i < |chunks| && chunks[i] !in st.sections[code].citations then
      Refuse(st, RagReferenceInvalid)
    else
      (WithTask(st, st.task.(pending := [code], status := Queued, operation := Generate, progress := 35))
       .(callbacks := st.callbacks + 1), Done)
  }

  predicate HasError(s: Section) {
    Error in s.issues
  }

  predicate AllLocked(sections: map<Code, Section>) {
    forall c <- sections :: sections[c].locked
  }

  predicate NoErrors(sections: map<Code, Section>) {
    forall c <- sections :: !HasError(sections[c])
  }

  function CodesOf(order: seq<Code>): set<Code> {
    set i | 0 <= i < |order| :: order[i]
  }

  function LockAll(st: State): (State, Outcome) {
    if st.task.status != ReviewRequired then Refuse(st, InvalidTransition)
    else if !NoErrors(st.sections) then Refuse(st, SectionValidationFailed)
    else (st.(sections := map c <- st.sections :: st.sections[c].(locked := true)), Done)
  }

  function Submit(cfg: Config, st: State): (State, Outcome) {
    if !st.projectActive then Refuse(st, ProjectArchived)
    else if st.task.status != ReviewRequired then Refuse(st, InvalidTransition)
    else if CodesOf(cfg.sectionOrder) != st.sections.Keys || !AllLocked(st.sections) then
      Refuse(st, ReviewIncomplete)
    else (WithTask(st, st.task.(status := PendingApproval)), Done)
  }

  function Approve(cfg: Config, st: State): (State, Outcome) {
    if !st.projectActive then Refuse(st, ProjectArchived)
    else if st.task.status != PendingApproval then Refuse(st, InvalidTransition)
    else if CodesOf(cfg.sectionOrder) - st.sections.Keys != {} then Refuse(st, SectionsIncomplete)
    else if !AllLocked(st.sections) then Refuse(st, SectionsNotLocked)
    else if !NoErrors(st.sections) then Refuse(st, ValidationFailed)
    else (WithTask(st, st.task.(status := Approved, progress := 95)), Done)
  }

  predicate IsReviewable(s: Status) {
    s == ReviewRequired || s == PendingApproval || s == Approved
  }

  // What the export depends on outside the task: the template file, and whatever the target
  // folder, the file name, the renderer or the document store may object to.
  datatype ExportWorld = ExportWorld(templateFile: bool, trouble: Option<ErrorCode>, manualFill: bool)

  function Export(cfg: Config, st: State, key: string, world: ExportWorld): (State, Outcome) {
    var clean := Strip(key);
    if !st.projectActive then Refuse(st, ProjectArchived)
    else if clean == "" then Refuse(st, KeyRequired)
    else if st.task.status == Exported then
      if st.task.exportKey != clean then Refuse(st, IdempotencyConflict) else (st, Done)
    else if !IsReviewable(st.task.status) then
      Refuse(st, InvalidTransition)
    else if !world.templateFile then Refuse(st, TemplateInvalid)
    else if CodesOf(cfg.effectiveOrder) != st.sections.Keys then Refuse(st, SectionsIncomplete)
    else if !AllLocked(st.sections) then Refuse(st, SectionsNotLocked)
    else if !NoErrors(st.sections) then Refuse(st, ValidationFailed)
    else if world.trouble.Some? then Refuse(st, world.trouble.value)
    else
      (WithTask(st, st.task.(status := Exported, progress := 100, manualFill := world.manualFill,
                             output := Some(st.nextDoc), exportKey := clean))
       .(exports := st.exports + [st.nextDoc], nextDoc := st.nextDoc + 1), Done)
  }

  // ---------------------------------------------------------------- recovery.py

  /** The sweep for one task: a stale GENERATING row goes back to QUEUED, and every QUEUED or
    * EXTRACTING task is handed to the queue again after the commit. */
  function Recover(st: State, stale: bool): State {
    var swept := if stale && st.task.status == Generating
                 then WithTask(st, st.task.(status := Queued, errorCode := WorkerInterrupted)) else st;
    if swept.task.status == Queued || swept.task.status == Extracting
    then swept.(callbacks := swept.callbacks + 1) else swept
  }

  // ---------------------------------------------------------------- jobs.py

  /** run_generation_task: which body runs, if any. */
  function Dispatch(t: Task): Option<Operation> {
    if t.operation == Extract && t.status == Extracting then Some(Extract)
    else if t.operation == Generate && t.status == Queued then Some(Generate)
    else None
  }

  function Spawn(st: State, w: WorkerId): State {
    if w in st.workers then st
    else match Dispatch(st.task)
      case None => st.(job := Over)
      case Some(kind) => st.(workers := st.workers[w := Worker(kind, Claiming)], job := Started)
  }

  function SetPhase(st: State, w: WorkerId, phase: Phase): State
    requires w in st.workers
  {
    st.(workers := st.workers[w := st.workers[w].(phase := phase)])
  }

  predicate InPhase(st: State, w: WorkerId, kind: Operation, phase: Phase) {
    w in st.workers && st.workers[w] == Worker(kind, phase)
  }

  /** The first transaction of a worker: re-check the status under the row lock and claim. */
  function Claim(st: State, w: WorkerId): State {
    if w !in st.workers || st.workers[w].phase != Claiming then st
    else
      var kind := st.workers[w].kind;
      var t := st.task;
      var claimable := if kind == Generate then t.status == Queued
                       else t.status == Extracting && t.operation == Extract;
      if !claimable then SetPhase(st, w, Reporting)
      else if !st.projectActive then
        WithTask(SetPhase(st, w, Reporting), t.(status := Failed, errorCode := ProjectArchived))
      else if kind == Generate then
        WithTask(SetPhase(st, w, Running),
                 t.(status := Generating, progress := 40, attempts := t.attempts + 1, errorCode := NoError))
      else
        WithTask(SetPhase(st, w, Running), t.(attempts := t.attempts + 1, errorCode := NoError))
  }

  function WorkerEmit(st: State, w: WorkerId, stage: Stage, tool: Tool, failed: bool): State {
    if w !in st.workers || (st.workers[w].phase != Running && st.workers[w].phase != Reporting) || tool == CancelTool then st
    else Emit(st, stage, tool, failed).0
  }

  /** ORMSectionRepository.save. */
  function SaveSection(st: State, code: Code, title: string, content: string, structure: Structure,
                       issues: seq<Severity>): (State, Outcome) {
    if st.task.status != Generating || st.task.deleted then Refuse(st, TaskCancelled)
    else if code !in st.sections then
      (PutSection(st, code, Section(title, content, Some(structure), structure.citations, issues, 1, false)), Done)
    else if st.sections[code].locked then (st, Done)
    else
      (PutSection(st, code, Section(title, content, Some(structure), structure.citations, issues,
                                    st.sections[code].revision + 1, false)), Done)
  }

  function WorkerSave(st: State, w: WorkerId, code: Code, title: string, content: string,
                      structure: Structure, issues: seq<Severity>): State {
    if !InPhase(st, w, Generate, Running) then st
    else SaveSection(st, code, title, content, structure, issues).0
  }

  /** TaskDraftArtifactStorage.save, one database or file access at a time. */
  function DraftStep(st: State, w: WorkerId): State {
    if w !in st.workers || st.workers[w].kind != Generate then st
    else match st.workers[w].phase
      case Running =>
        if st.task.status != Generating || st.task.deleted then st
        else SetPhase(st, w, DraftRead(st.task.draft))
      case DraftRead(was) =>
        SetPhase(st, w, DraftStored(was, st.nextFile))
        .(files := st.files + {st.nextFile}, nextFile := st.nextFile + 1)
      case DraftStored(was, stored) =>
        if st.task.status == Generating && !st.task.deleted then
          WithTask(SetPhase(st, w, DraftSwapped(was, stored)), st.task.(draft := Some(stored)))
        else SetPhase(st, w, Running).(files := st.files - {stored})
      case DraftSwapped(was, stored) =>
        SetPhase(st, w, Running)
        .(files := if was.Some? && was.value != stored then st.files - {was.value} else st.files)
      case _ => st
  }

  function CommitGeneration(st: State, w: WorkerId): State {
    if !InPhase(st, w, Generate, Running) then st
    else if st.task.status != Generating then SetPhase(st, w, Reporting)
    else
      WithTask(SetPhase(st, w, Reporting),
               st.task.(status := ReviewRequired, progress := 90, pending := []))
  }

  function CommitExtraction(st: State, w: WorkerId, proposals: seq<Fact>, conflicts: seq<string>): State {
    if !InPhase(st, w, Extract, Running) then st
    else if st.task.status != Extracting || st.task.operation != Extract then SetPhase(st, w, Reporting)
    else
      WithTask(SetPhase(st, w, Reporting),
               st.task.(facts := proposals, conflicts := conflicts, status := NeedsConfirmation, progress := 20))
  }

  // What a worker body raised: the error code, the codes of the validation issues it carries,
  // the section that failed validation ("" for none) and the fields without evidence.
  datatype Failure = Failure(code: ErrorCode, issues: seq<IssueCode>, section: Code, fields: seq<string>)

  predicate RevisionRecovery(f: Failure) {
    f.code == ValidationFailed &&
    (ContentUnchanged in f.issues || LiteralMissing in f.issues)
  }

  predicate NeedsWork(sections: map<Code, Section>, code: Code) {
    code !in sections || Strip(sections[code].content) == "" || HasError(sections[code])
  }

  function Unfinished(order: seq<Code>, sections: map<Code, Section>): seq<Code> {
    if order == [] then []
    else
      var before := Unfinished(order[..|order| - 1], sections);
      var code := order[|order| - 1];
      if NeedsWork(sections, code) then before + [code] else before
  }

  /** _pending_validation_sections. */
  function PendingValidation(cfg: Config, st: State, failed: Code): seq<Code> {
    var pending := Unfinished(cfg.sectionOrder, st.sections);
    if failed != "" && failed !in pending then pending + [failed] else pending
  }

  /** The task row _record_failure leaves. It looks at the status only to leave CANCELLED alone. */
  function RecordFailure(cfg: Config, st: State, f: Failure, retriesLeft: nat): Task {
    var t := st.task;
    if t.status == Cancelled then t
    else if f.code == FactEvidenceInvalid then
      t.(status := NeedsConfirmation, progress := 20, conflicts := f.fields, errorCode := f.code)
    else if RevisionRecovery(f) then
      t.(status := ReviewRequired, progress := 90, pending := [], errorCode := f.code)
    else if f.code == ValidationFailed then
      t.(status := if retriesLeft > 0 then Queued else Failed,
         pending := PendingValidation(cfg, st, f.section), errorCode := f.code)
    else if retriesLeft > 0 then
      t.(status := if t.operation == Extract then Extracting else Queued, errorCode := f.code)
    else t.(status := Failed, errorCode := f.code)
  }

  /** Between claim and report. A worker can fail anywhere there, also between two steps of a draft; then
    * what the draft has stored so far stays. */
  predicate AtWork(phase: Phase) {
    phase != Claiming && phase != Reporting
  }

  function WorkerFail(cfg: Config, st: State, w: WorkerId, f: Failure): State {
    if w !in st.workers || !AtWork(st.workers[w].phase) then st
    else WithTask(SetPhase(st, w, Reporting), RecordFailure(cfg, st, f, st.retries))
  }

  /** The job ends: it may be rescheduled after an exception, or die without a word. */
  function End(st: State, w: WorkerId, ending: Ending): State {
    if w !in st.workers then st
    else
      var gone := st.(workers := st.workers - {w});
      match ending
      case Returned => gone.(job := Over)
      case Raised => if st.retries > 0 then gone.(job := Waiting, retries := st.retries - 1)
                     else gone.(job := Over)
      case Killed => gone
  }

  // ---------------------------------------------------------------- the machine

  // What users ask for, one service call each.
  datatype Request =
    | RAddSources(ids: set<int>, eligible: bool)
    | RPrepare
    | RConfirm(items: seq<Submission>, evidence: Evidence)
    | RGenerate
    | RRetry(evidence: Evidence)
    | RStop
    | RDelete
    | REdit(code: Code, content: string, input: StructuredInput, expected: nat)
    | RSetLock(code: Code, locked: bool)
    | RLockAll
    | RRegenerate(code: Code, instruction: string, chunks: seq<string>)
    | RSubmit
    | RApprove
    | RExport(key: string, world: ExportWorld)

  // What a worker does between two of its transactions.
  datatype Action =
    | AClaim
    | AEmit(stage: Stage, tool: Tool, failed: bool)
    | ASave(code: Code, title: string, content: string, structure: Structure, issues: seq<Severity>)
    | ADraft
    | ACommitGeneration
    | ACommitExtraction(proposals: seq<Fact>, conflicts: seq<string>)
    | AFail(failure: Failure)
    | AEnd(ending: Ending)

  /** Requests about sources, facts and the run of a task; the others are about its sections. */
  predicate OnFacts(r: Request) {
    r.RAddSources? || r.RPrepare? || r.RConfirm? || r.RGenerate? || r.RRetry? || r.RStop? || r.RDelete?
  }

  datatype Step =
    | User(request: Request)
    | Work(w: WorkerId, action: Action)
    | Spawned(w: WorkerId)           // the queue starts the job
    | Recovered(stale: bool)         // a recovery sweep
    | Callback(reachable: bool)      // an on-commit call of queue_generation_task
    | StopFinished                   // an on-commit call of _finish_stopping_generation_task
    | Abandoned(retried: bool)       // the queue finds a started job whose worker is gone
    | ProjectTurned(active: bool)    // the project is archived or unarchived

  function Serve(cfg: Config, st: State, request: Request): (State, Outcome) {
    match request
    case RAddSources(ids, eligible) => AddSources(st, ids, eligible)
    case RPrepare => Prepare(cfg, st)
    case RConfirm(items, evidence) => Confirm(cfg, st, items, evidence)
    case RGenerate => RequestGeneration(st)
    case RRetry(evidence) => Retry(cfg, st, evidence)
    case RStop => Stop(st)
    case RDelete => Delete(st)
    case REdit(code, content, input, expected) => Edit(st, code, content, input, expected)
    case RSetLock(code, locked) => SetLock(st, code, locked)
    case RLockAll => LockAll(st)
    case RRegenerate(code, instruction, chunks) => Regenerate(st, code, instruction, chunks)
    case RSubmit => Submit(cfg, st)
    case RApprove => Approve(cfg, st)
    case RExport(key, world) => Export(cfg, st, key, world)
  }

  function Act(cfg: Config, st: State, w: WorkerId, action: Action): State {
    match action
    case AClaim => Claim(st, w)
    case AEmit(stage, tool, failed) => WorkerEmit(st, w, stage, tool, failed)
    case ASave(code, title, content, structure, issues) =>
      WorkerSave(st, w, code, title, content, structure, issues)
    case ADraft => DraftStep(st, w)
    case ACommitGeneration => CommitGeneration(st, w)
    case ACommitExtraction(proposals, conflicts) => CommitExtraction(st, w, proposals, conflicts)
    case AFail(failure) => WorkerFail(cfg, st, w, failure)
    case AEnd(ending) => End(st, w, ending)
  }

  function Next(cfg: Config, st: State, step: Step): State {
    match step
    case User(request) => Serve(cfg, st, request).0
    case Work(w, action) => Act(cfg, st, w, action)
    case _ => Around(st, step)
  }

  /** What the queue, the sweeps and the project do to the task. */
  function Around(st: State, step: Step): State
    requires !step.User? && !step.Work?
  {
    match step
    case Spawned(w) => Spawn(st, w)
    case Recovered(stale) => Recover(st, stale)
    case Callback(reachable) => RunCallback(st, reachable)
    case StopFinished => FinishStop(st)
    case Abandoned(retried) => AbandonJob(st, retried)
    case ProjectTurned(active) => st.(projectActive := active)
  }

  /** What the queue, the sweeps and the project leave alone. */
  ghost predicate QueueMoves(a: State, b: State) {
    && b.sections == a.sections && b.files == a.files && b.nextFile == a.nextFile
    && b.exports == a.exports && b.nextDoc == a.nextDoc
    && b.task == a.task.(status := b.task.status, errorCode := b.task.errorCode, progress := b.task.progress)
    && (b.task.status == a.task.status || b.task.status == Failed || (a.task.status == Generating && b.task.status == Queued))
    && (forall w <- b.workers :: (w in a.workers && b.workers[w] == a.workers[w])
                                 || (b.workers[w].phase == Claiming && Dispatch(a.task) == Some(b.workers[w].kind)))
  }

  lemma SpawnMoves(st: State, w: WorkerId)
    ensures QueueMoves(st, Spawn(st, w)) && Spawn(st, w).task == st.task
  {
  }

  lemma CallbackMoves(st: State, reachable: bool)
    ensures QueueMoves(st, RunCallback(st, reachable)) && (reachable ==> RunCallback(st, reachable).task == st.task)
  {
  }

  lemma FinishStopMoves(st: State)
    ensures QueueMoves(st, FinishStop(st)) && FinishStop(st).task == st.task
  {
  }

  lemma RecoverMoves(st: State, stale: bool)
    ensures QueueMoves(st, Recover(st, stale))
    ensures st.task.status != Generating ==> Recover(st, stale).task == st.task
  {
  }

  lemma AroundMoves(st: State, step: Step)
    requires !step.User? && !step.Work?
    ensures QueueMoves(st, Around(st, step))
    ensures st.task.status != Generating && step != Callback(false) ==> Around(st, step).task == st.task
  {
    match step
    case Spawned(w) => SpawnMoves(st, w);
    case Recovered(stale) => RecoverMoves(st, stale);
    case Callback(reachable) => CallbackMoves(st, reachable);
    case StopFinished => FinishStopMoves(st);
    case _ =>
  }

  function Run(cfg: Config, st: State, steps: seq<Step>): State
    decreases |steps|
  {
    if steps == [] then st else Run(cfg, Next(cfg, st, steps[0]), steps[1..])
  }

  lemma RunOne(cfg: Config, st: State, step: Step)
    ensures Run(cfg, st, [step]) == Next(cfg, st, step)
  {
    assert Run(cfg, Next(cfg, st, step), [step][1..]) == Next(cfg, st, step);
  }

  lemma {:induction false} RunAppend(cfg: Config, st: State, first: seq<Step>, second: seq<Step>)
    ensures Run(cfg, st, first + second) == Run(cfg, Run(cfg, st, first), second)
    decreases |first|
  {
    if first == [] {
      assert first + second == second;
    } else {
      assert (first + second)[1..] == first[1..] + second;
      RunAppend(cfg, Next(cfg, st, first[0]), first[1..], second);
    }
  }
}
