/** The same transactions as the program runs them: rows updated in place, field by field, behind a
  * chain of guards. Each method is tied to the transition of `TaskModel` it implements. */
module TaskStore {
  import opened Prelude
  import opened Text
  import opened TaskModel

  class Store {
    const cfg: Config

    var task: Task   // the row; a transaction loads it, assigns to its columns and saves it

    // its sections, events and sources
    var sections: map<Code, Section>
    var events: seq<Event>
    var sources: set<int>

    // what surrounds it
    var projectActive: bool
    var workers: map<WorkerId, Worker>
    var job: Job
    var retries: nat
    var callbacks: nat
    var stops: nat
    var files: set<FileId>
    var nextFile: FileId
    var exports: seq<DocId>
    var nextDoc: DocId

    ghost function View(): State
      reads this
    {
      State(task, sections, events, sources, projectActive, workers, job, retries, callbacks, stops,
            files, nextFile, exports, nextDoc)
    }

    constructor (cfg: Config, initialFacts: seq<Fact>)
      ensures this.cfg == cfg && View() == Fresh(cfg, initialFacts)
    {
      this.cfg := cfg;
      task := Task(Draft, Extract, 0, false, cfg.sectionOrder, initialFacts, [], NoError, None, None,
                   "", false, 0);
      sections, events, sources, projectActive := map[], [], {}, true;
      workers, job, retries, callbacks, stops := map[], NoJob, 0, 0, 0;
      files, nextFile, exports, nextDoc := {}, 0, [], 0;
    }

    // -------------------------------------------------------------- queue and recovery

    method QueueTask(reachable: bool)
      modifies this
      ensures View() == Enqueue(old(View()), reachable)
    {
      if !reachable {
        task := task.(status := Failed, errorCode := QueueUnavailable);
        return;
      }
      if job == Waiting || job == Started {
        return;
      }
      job := Waiting;
      retries := QUEUE_RETRIES;
    }

    method RecoverTask(stale: bool)
      modifies this
      ensures View() == Recover(old(View()), stale)
    {
      if stale && task.status == Generating {
        task := task.(status := Queued, errorCode := WorkerInterrupted);
      }
      if task.status == Queued || task.status == Extracting {
        callbacks := callbacks + 1;
      }
    }

    // -------------------------------------------------------------- trace

    method EmitEvent(stage: Stage, tool: Tool, failed: bool) returns (outcome: Outcome)
      modifies this`events, this`task
      ensures (View(), outcome) == Emit(old(View()), stage, tool, failed)
    {
      if task.status == Cancelled && tool != CancelTool {
        return Refused(TaskCancelled);
      }
      var current := MaxSequence(events);
      events := events + [Event(current + 1, stage, tool, failed)];
      var next := StageProgress(task.operation, stage);
      if !failed && next.Some? && next.value > task.progress {
        task := task.(progress := next.value);
      }
      return Done;
    }

    // -------------------------------------------------------------- requests: facts

    method PrepareFacts() returns (outcome: Outcome)
      modifies this
      ensures (View(), outcome) == Prepare(cfg, old(View()))
    {
      if !projectActive { return Refused(ProjectArchived); }
      if task.status != Draft { return Refused(InvalidTransition); }
      if sources == {} && !cfg.hasPrompt { return Refused(PromptRequired); }
      task := task.(status := Extracting, operation := Extract, progress := 10);
      var _ := EmitEvent(Initialized, QueueExtractionTool, false);
      callbacks := callbacks + 1;
      return Done;
    }

    method CheckSubmissions(items: seq<Submission>, sourceIds: set<int>)
        returns (error: Option<ErrorCode>, confirmed: seq<Fact>)
      ensures error == SubmissionError(items, sourceIds)
      ensures error == None ==> confirmed == SubmittedFacts(items)
    {
      confirmed := [];
      for i := 0 to |items|
        invariant SubmissionError(items, sourceIds) == SubmissionError(items[i..], sourceIds)
        invariant confirmed + SubmittedFacts(items[i..]) == SubmittedFacts(items)
      {
        assert items[i..][1..] == items[i + 1..];
        match items[i] {
          case Malformed => return Some(FactsIncomplete), [];
          case Wellformed(fact, hasLocator, _) =>
            if fact.source !in sourceIds || !hasLocator {
              return Some(FactSourceInvalid), [];
            }
            confirmed := confirmed + [fact];
        }
      }
      return None, confirmed;
    }

    method ConfirmFacts(items: seq<Submission>, evidence: Evidence) returns (outcome: Outcome)
      modifies this
      ensures (View(), outcome) == Confirm(cfg, old(View()), items, evidence)
    {
      if !projectActive { return Refused(ProjectArchived); }
      if task.status != NeedsConfirmation { return Refused(InvalidTransition); }
      var sourceIds := if cfg.hasPrompt then sources + {PROMPT_SOURCE} else sources;
      var error, confirmed := CheckSubmissions(items, sourceIds);
      if error.Some? { return Refused(error.value); }
      if !Complete(cfg, confirmed) { return Refused(FactsIncomplete); }
      if !ValuesValid(cfg, items) { return Refused(FactsInvalid); }
      match evidence {
        case EvidenceInvalid(_) => return Refused(FactEvidenceInvalid);
        case EvidenceTrouble(code) => return Refused(code);
        case FactsUnreadable => return Refused(FactsIncomplete);
        case Located(locators) =>
          task := task.(facts := Relocate(confirmed, locators), conflicts := [], status := Ready, progress := 30, errorCode := NoError);
          return Done;
      }
    }

    method GenerateDocument() returns (outcome: Outcome)
      modifies this
      ensures (View(), outcome) == RequestGeneration(old(View()))
    {
      if !projectActive { return Refused(ProjectArchived); }
      if task.status != Ready { return Refused(InvalidTransition); }
      task := task.(status := Queued, operation := Generate, progress := 35, errorCode := NoError);
      callbacks := callbacks + 1;
      return Done;
    }

    method RetryTask(evidence: Evidence) returns (outcome: Outcome)
      modifies this
      ensures (View(), outcome) == Retry(cfg, old(View()), evidence)
    {
      if !projectActive { return Refused(ProjectArchived); }
      var retryable := task.status == Failed || (task.operation == Extract && task.status == NeedsConfirmation);
      if !retryable { return Refused(InvalidTransition); }
      if task.operation == Generate && (task.facts == [] || (sources == {} && !cfg.hasPrompt)) {
        return Refused(FactsIncomplete);
      }
      if task.operation == Generate && task.errorCode == FactEvidenceInvalid {
        match evidence {
          case FactsUnreadable => return Refused(FactsIncomplete);
          case EvidenceTrouble(code) => return Refused(code);
          case EvidenceInvalid(fields) =>
            task := task.(status := NeedsConfirmation, progress := 20, conflicts := fields);
            return Done;
          case Located(locators) =>
            task := task.(facts := Relocate(task.facts, locators), conflicts := []);
        }
      }
      Requeue();
      return Done;
    }

    method Requeue()
      modifies this`task, this`callbacks
      ensures View() == Requeued(old(View()), old(task))
    {
      if task.operation == Extract {
        task := task.(status := Extracting, progress := 10, errorCode := NoError);
      } else {
        task := task.(status := Queued, progress := 35, errorCode := NoError);
      }
      callbacks := callbacks + 1;
    }

    method StopTask() returns (outcome: Outcome)
      modifies this
      ensures (View(), outcome) == Stop(old(View()))
    {
      if !IsActiveStatus(task.status) { return Refused(InvalidTransition); }
      task := task.(status := Cancelled, errorCode := NoError);
      stops := stops + 1;
      return Done;
    }

    method FinishStopping()
      requires stops > 0
      modifies this
      ensures View() == FinishStop(old(View()))
    {
      stops := stops - 1;
      var _ := EmitEvent(OtherStage, CancelTool, false);
      if job == Waiting {
        job := Over;
      }
    }

    method DeleteTask() returns (outcome: Outcome)
      modifies this
      ensures (View(), outcome) == Delete(old(View()))
    {
      if IsActiveStatus(task.status) { return Refused(TaskStillRunning); }
      if task.deleted { return Done; }
      task := task.(deleted := true);
      if task.draft.Some? {
        files := files - {task.draft.value};
      }
      return Done;
    }

    // -------------------------------------------------------------- requests: sections

    method EditSection(code: Code, content: string, input: StructuredInput, expected: nat)
        returns (outcome: Outcome)
      modifies this
      ensures (View(), outcome) == Edit(old(View()), code, content, input, expected)
    {
      if task.status != ReviewRequired { return Refused(InvalidTransition); }
      if code !in sections { return Refused(NotFound); }
      var section := sections[code];
      if section.locked { return Refused(SectionLocked); }
      if section.revision != expected { return Refused(SectionRevisionConflict); }
      var clean := Strip(content);
      if clean == "" { return Refused(SectionEmpty); }
      var original := SectionStructure(code, section);
      var updated := original;
      if input.BadStructure? { return Refused(SectionStructureInvalid); }
      if input.GivenStructure? {
        var requested := input.structure;
        if requested.code != code { return Refused(SectionStructureInvalid); }
        if !KeepsRequired(original, requested) { return Refused(RequiredBlockRemoval); }
        updated := requested;
      }
      updated := updated.(paragraphs := Paragraphs(clean));
      section := section.(content := clean, structure := Some(updated));
      section := section.(citations := updated.citations);
      section := section.(revision := section.revision + 1);
      sections := sections[code := section];
      return Done;
    }

    method SetSectionLock(code: Code, locked: bool) returns (outcome: Outcome)
      modifies this
      ensures (View(), outcome) == SetLock(old(View()), code, locked)
    {
      if task.status != ReviewRequired { return Refused(InvalidTransition); }
      if code !in sections { return Refused(NotFound); }
      sections := sections[code := sections[code].(locked := locked)];
      return Done;
    }

    method RegenerateSection(code: Code, instruction: string, chunks: seq<string>) returns (outcome: Outcome)
      modifies this
      ensures (View(), outcome) == Regenerate(old(View()), code, instruction, chunks)
    {
      if !projectActive { return Refused(ProjectArchived); }
      if task.status != ReviewRequired { return Refused(InvalidTransition); }
      if code !in sections { return Refused(NotFound); }
      if sections[code].locked { return Refused(SectionLocked); }
      if Strip(instruction) == "" { return Refused(InstructionRequired); }
      if exists i :: 0 <= i < |chunks| && chunks[i] !in sections[code].citations {
        return Refused(RagReferenceInvalid);
      }
      task := task.(pending := [code], status := Queued, operation := Generate, progress := 35);
      callbacks := callbacks + 1;
      return Done;
    }

    method LockAllSections() returns (outcome: Outcome)
      modifies this
      ensures (View(), outcome) == LockAll(old(View()))
    {
      if task.status != ReviewRequired { return Refused(InvalidTransition); }
      if !NoErrors(sections) { return Refused(SectionValidationFailed); }
      sections := map c <- sections :: sections[c].(locked := true);
      return Done;
    }

    method SubmitReview() returns (outcome: Outcome)
      modifies this
      ensures (View(), outcome) == Submit(cfg, old(View()))
    {
      if !projectActive { return Refused(ProjectArchived); }
      if task.status != ReviewRequired { return Refused(InvalidTransition); }
      if CodesOf(cfg.sectionOrder) != sections.Keys || !AllLocked(sections) {
        return Refused(ReviewIncomplete);
      }
      task := task.(status := PendingApproval);
      return Done;
    }

    method ApproveTask() returns (outcome: Outcome)
      modifies this
      ensures (View(), outcome) == Approve(cfg, old(View()))
    {
      if !projectActive { return Refused(ProjectArchived); }
      if task.status != PendingApproval { return Refused(InvalidTransition); }
      if CodesOf(cfg.sectionOrder) - sections.Keys != {} { return Refused(SectionsIncomplete); }
      if !AllLocked(sections) { return Refused(SectionsNotLocked); }
      if !NoErrors(sections) { return Refused(ValidationFailed); }
      task := task.(status := Approved, progress := 95);
      return Done;
    }

    method ExportTask(key: string, world: ExportWorld) returns (outcome: Outcome)
      modifies this
      ensures (View(), outcome) == Export(cfg, old(View()), key, world)
    {
      if !projectActive { return Refused(ProjectArchived); }
      var clean := Strip(key);
      if clean == "" { return Refused(KeyRequired); }
      if task.status == Exported {
        if task.exportKey != clean { return Refused(IdempotencyConflict); }
        return Done;
      }
      if !IsReviewable(task.status) { return Refused(InvalidTransition); }
      if !world.templateFile { return Refused(TemplateInvalid); }
      if CodesOf(cfg.effectiveOrder) != sections.Keys { return Refused(SectionsIncomplete); }
      if !AllLocked(sections) { return Refused(SectionsNotLocked); }
      if !NoErrors(sections) { return Refused(ValidationFailed); }
      if world.trouble.Some? { return Refused(world.trouble.value); }
      StoreExport(clean, world.manualFill);
      return Done;
    }

    method StoreExport(key: string, manualFill: bool)
      modifies this`nextDoc, this`exports, this`task
      ensures task == old(task).(status := Exported, progress := 100, manualFill := manualFill,
                                 output := Some(old(nextDoc)), exportKey := key)
      ensures exports == old(exports) + [old(nextDoc)] && nextDoc == old(nextDoc) + 1
    {
      var document := nextDoc;
      nextDoc := nextDoc + 1;
      exports := exports + [document];
      task := task.(status := Exported, progress := 100, manualFill := manualFill);
      task := task.(output := Some(document), exportKey := key);
    }

    // -------------------------------------------------------------- worker transactions

    method ClaimTask(w: WorkerId)
      requires w in workers && workers[w].phase == Claiming
      modifies this
      ensures View() == Claim(old(View()), w)
    {
      var kind := workers[w].kind;
      workers := workers[w := Worker(kind, Reporting)];
      if kind == Generate {
        if task.status != Queued { return; }
      } else {
        if task.status != Extracting || task.operation != Extract { return; }
      }
      if !projectActive {
        task := task.(status := Failed, errorCode := ProjectArchived);
        return;
      }
      if kind == Generate {
        task := task.(status := Generating, progress := 40);
      }
      task := task.(attempts := task.attempts + 1, errorCode := NoError);
      workers := workers[w := Worker(kind, Running)];
    }

    method SaveGeneratedSection(code: Code, title: string, content: string, structure: Structure,
                                issues: seq<Severity>) returns (outcome: Outcome)
      modifies this`sections
      ensures (View(), outcome) == SaveSection(old(View()), code, title, content, structure, issues)
    {
      if task.status != Generating || task.deleted { return Refused(TaskCancelled); }
      if code !in sections {
        sections := sections[code := Section(title, content, Some(structure), structure.citations,
                                             issues, 1, false)];
        return Done;
      }
      var row := sections[code];
      if row.locked { return Done; }
      row := row.(title := title, content := content, structure := Some(structure));
      row := row.(citations := structure.citations, issues := issues);
      row := row.(revision := row.revision + 1);
      sections := sections[code := row];
      return Done;
    }

    method CommitDocument(w: WorkerId)
      requires w in workers && workers[w] == Worker(Generate, Running)
      modifies this
      ensures View() == TaskModel.CommitGeneration(old(View()), w)
    {
      workers := workers[w := Worker(Generate, Reporting)];
      if task.status != Generating { return; }
      task := task.(status := ReviewRequired, progress := 90, pending := []);
    }

    method CommitFacts(w: WorkerId, proposals: seq<Fact>, found: seq<string>)
      requires w in workers && workers[w] == Worker(Extract, Running)
      modifies this
      ensures View() == CommitExtraction(old(View()), w, proposals, found)
    {
      workers := workers[w := Worker(Extract, Reporting)];
      if task.status != Extracting || task.operation != Extract { return; }
      task := task.(facts := proposals, conflicts := found, status := NeedsConfirmation, progress := 20);
    }

    /** _pending_validation_sections. */
    method PendingSections(failed: Code) returns (codes: seq<Code>)
      ensures codes == PendingValidation(cfg, View(), failed)
    {
      codes := [];
      for i := 0 to |cfg.sectionOrder|
        invariant codes == Unfinished(cfg.sectionOrder[..i], sections)
      {
        var code := cfg.sectionOrder[i];
        if code !in sections || Strip(sections[code].content) == "" || HasError(sections[code]) {
          codes := codes + [code];
        }
        assert cfg.sectionOrder[..i + 1][..i] == cfg.sectionOrder[..i];
      }
      assert cfg.sectionOrder[..|cfg.sectionOrder|] == cfg.sectionOrder;
      if failed != "" && failed !in codes {
        codes := codes + [failed];
      }
    }

    method ReportFailure(w: WorkerId, f: Failure)
      requires w in workers && AtWork(workers[w].phase)
      modifies this
      ensures View() == WorkerFail(cfg, old(View()), w, f)
    {
      workers := workers[w := workers[w].(phase := Reporting)];
      if task.status == Cancelled { return; }
      if f.code == FactEvidenceInvalid {
        task := task.(status := NeedsConfirmation, progress := 20, conflicts := f.fields);
      } else if RevisionRecovery(f) {
        task := task.(status := ReviewRequired, progress := 90, pending := []);
      } else if f.code == ValidationFailed {
        var codes := PendingSections(f.section);
        task := task.(pending := codes, status := if retries > 0 then Queued else Failed);
      } else if retries > 0 {
        task := task.(status := if task.operation == Extract then Extracting else Queued);
      } else {
        task := task.(status := Failed);
      }
      task := task.(errorCode := f.code);
    }

    /** The draft storage, from the stored file on: publish it or take it away again. */
    method PublishDraft(w: WorkerId, was: Option<FileId>, stored: FileId) returns (published: bool)
      requires w in workers && workers[w] == Worker(Generate, DraftStored(was, stored))
      modifies this
      ensures View() == DraftStep(old(View()), w)
      ensures published <==> task.draft == Some(stored) && workers[w].phase == DraftSwapped(was, stored)
    {
      if task.status == Generating && !task.deleted {
        task := task.(draft := Some(stored));
        workers := workers[w := Worker(Generate, DraftSwapped(was, stored))];
        return true;
      }
      files := files - {stored};
      workers := workers[w := Worker(Generate, Running)];
      return false;
    }
  }
}
