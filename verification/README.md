# Verified model of the engineering document system

This project models the parts of the system where several requests, workers and scheduled commands
meet on the same rows, and the deterministic transformations the rest relies on, and proves what they
keep.

- **Document-generation tasks** (`Task*.dfy`). One task is a state machine: its row, sections, trace,
  queue job, workers, draft files and exports. `TaskModel` has one function for every transaction of a
  request, a worker, the queue or the recovery sweep; a run is any sequence of them, so every
  interleaving is covered, with any number of workers and a worker body that does whatever it likes
  between its transactions. Calls made after a commit (the enqueue of a task, the second half of a
  stop) are steps of their own. `TaskStore` has the same transactions as methods that update the row in
  place, each tied to its function.
- **Corpus uploads** (`Corpus*.dfy`). Both ways to create an upload, retry, claims and the indexing
  worker with its job, over all uploads at once. What a request checks and what it inserts later are
  separate steps, and so is the enqueue after a commit; a bulk enqueue holds its row locks between check
  and insert.
- **Folders, projects and documents in them** (`Forest`, `Folders`, `FolderGraph`, `FolderRuns`,
  `FolderStore`, `ProjectDeletion`, `FolderClosure`, `FolderTree`). The parent graph, moves, archiving
  and unarchiving, deletion of a project, descendant queries and the nested list.
- **Repair of archived documents** (`Repair*.dfy`): when a run completes and where each step leaves a
  project's container, with every document judged on its folder and that folder's parent as read before
  the first repair.
- **Documents, versions and stored files** (`Documents`, `DocumentStore`, `StoragePaths`,
  `ArchiveNames`, `ArchivePaths`).
- **Canonical facts and section composition** (`FactTerms`, `CanonicalFacts`, `FactEnrichment`,
  `Composition`, over `Text`).
- **Backup archives** (`Backup`, `BackupProof`, `BackupWitness`).

Time, permissions, file contents on the way in, digests, the JSON of a manifest, case folding, the
queue's reachability and the results of parsing, retrieval and generation are parameters.

## What turned out not to hold

Each is a lemma that gives the run or the input that breaks the property, or the exact condition under
which it holds.

- A cancelled task can come back: an enqueue that fails late writes FAILED over CANCELLED
  (`TaskFinality.StopIsFinalExactly`, `TaskRuns.LateEnqueueRevivesStopped`).
- EXPORTED is final only while no worker can still fail (`TaskFinality.ExportIsFinalExactly`,
  `TaskRuns.TwoWorkersUndoAnExport`).
- Nothing in the failure handler keeps a task waiting for the right job: it queues a task after
  VALIDATION_FAILED without looking at its operation. The dispatcher never skips a task only because
  extraction does not raise that code (`TaskDispatch.GenerationNeverStrands`); if it did, no job would take
  the task up again (`TaskRuns.ReportStrands`, `TaskDispatch.StrandedTaskIsSkippedForever`).
- Review checks the stored section order, export the inferred one
  (`TaskFinality.ApprovedExportsIffOrdersAgree`).
- Two corpus uploads of one content can hold the same section, and then overwrite each other's rows: the
  check for reserved sections is made before the transaction that inserts, without a lock or a constraint
  (`CorpusRace.RaceSharesSection`, `CorpusRace.RaceOverwritesRows`,
  `CorpusRuns.SectionsSharedIffOvertaken`).
- A corpus upload whose worker dies stays in PROCESSING (`CorpusQueue.CrashedUploadIsStuckIff`).
- A retry of a corpus upload can be lost for good (`CorpusLosses.RetryIsLost`, `CorpusQueue.ForgottenIff`),
  and an enqueue that fails late marks an upload FAILED under its worker or after its success
  (`CorpusLosses.LateEnqueueDropsRows`, `CorpusLosses.LateEnqueueUndoesSuccess`,
  `CorpusQueue.HeldIsProcessingIff`).
- Folder codes can be edited, also those of archive containers
  (`FolderGraph.UpdateKeepsStrictSharingExactly`); a public folder with a container's code can
  defeat the repair (`RepairProof.RepairSettlesIff`, `RepairLimits.RepairCanUnsettle`), or make it raise
  (`RepairCompletes.RepairCompletesIff`).
- Adding a version does not move a document's timestamp forward when the clock is behind
  (`Documents.ClockBehindLetsBothSucceed`, `Documents.SecondSucceedsIffClockBehind`).
- Erasing the phased-array terms can make up an ultrasonic one (`CanonicalFacts.ErasingMakesTerms`).
- The default table keys of a section never show a table (`Composition.DefaultKeysShowNothing`).
- A backup of a tree with a symbolic link to a file, or a second hard link, does not verify
  (`BackupProof.UnchangedTreeVerifies`).

## Model

| member | source | states |
|---|---|---|
| TaskStore.Store.QueueTask | backend/apps/document_generation/queues.py:21-64 | a task is handed to the queue once: a live job with its id is kept, any other is replaced, and when the queue cannot be reached the row becomes FAILED whatever it was; tied to the queue step of the state machine |
| TaskStore.Store.RecoverTask | backend/apps/document_generation/recovery.py:13-43 | the sweep of one task: a stale GENERATING row goes back to QUEUED, and QUEUED or EXTRACTING tasks are queued again |
| TaskStore.Store.EmitEvent | backend/apps/document_generation/workflow_events.py:96-137 | appends the next event and raises progress, never lowers it; a cancelled task takes only the event of its cancellation; tied to the machine's Emit |
| TaskStore.Store.PrepareFacts | backend/apps/document_generation/services.py:834-874 | the whole new state and the outcome of preparing fact extraction |
| TaskStore.Store.CheckSubmissions | backend/apps/document_generation/services.py:928-965 | the loop over submitted facts finds the error of the first unacceptable entry, or collects all facts in order |
| TaskStore.Store.ConfirmFacts | backend/apps/document_generation/services.py:920-1022 | the whole new state and the outcome of confirming facts, in the order of the checks |
| TaskStore.Store.GenerateDocument | backend/apps/document_generation/services.py:1070-1113 | the whole new state and the outcome of requesting generation |
| TaskStore.Store.RetryTask | backend/apps/document_generation/services.py:1116-1232 | the whole new state and the outcome of a retry, with the re-check of evidence after a FACT_EVIDENCE_INVALID failure |
| TaskStore.Store.StopTask | backend/apps/document_generation/services.py:1235-1280 | the whole new state and the outcome of a stop |
| TaskStore.Store.FinishStopping | backend/apps/document_generation/services.py:1328-1337 | the delayed part of a stop: one cancellation event, and a waiting job is cancelled |
| TaskStore.Store.DeleteTask | backend/apps/document_generation/services.py:1283-1325 | deleting hides the task and removes its draft file; refused while the task is active |
| TaskStore.Store.EditSection | backend/apps/document_generation/services.py:1341-1443 | an edit replaces content, structure and citations under the next revision, or is refused by the first check that fails |
| TaskStore.Store.SetSectionLock | backend/apps/document_generation/services.py:1447-1485 | locks or unlocks one section and nothing else |
| TaskStore.Store.RegenerateSection | backend/apps/document_generation/services.py:1488-1580 | queues one unlocked section for regeneration |
| TaskStore.Store.LockAllSections | backend/apps/document_generation/services.py:1584-1623 | locks every section, or none when one has an error |
| TaskStore.Store.SubmitReview | backend/apps/document_generation/services.py:1627-1666 | review is submitted only when exactly the sections of the stored order exist and all are locked |
| TaskStore.Store.ApproveTask | backend/apps/document_generation/services.py:1670-1737 | approval re-checks completeness, locks and errors |
| TaskStore.Store.ExportTask | backend/apps/document_generation/services.py:1741-1922 | an export happens once; the same key returns the stored document, another key is a conflict |
| TaskStore.Store.ClaimTask | backend/apps/document_generation/jobs.py:323-360 | the first transaction of a worker: the status is re-checked under the lock, then claimed |
| TaskStore.Store.SaveGeneratedSection | backend/apps/document_generation/repositories.py:165-199 | a worker's section write: refused unless the task is GENERATING and not deleted, ignored for a locked section, otherwise the next revision |
| TaskStore.Store.CommitDocument | backend/apps/document_generation/jobs.py:399-423 | the final commit of generation, only while the task is still GENERATING |
| TaskStore.Store.CommitFacts | backend/apps/document_generation/jobs.py:582-612 | the final commit of extraction, only while the task is still EXTRACTING |
| TaskStore.Store.PendingSections | backend/apps/document_generation/jobs.py:986-1003 | the loop that collects what a failed validation leaves to do |
| TaskStore.Store.ReportFailure | backend/apps/document_generation/jobs.py:1006-1154 | the row a failed worker leaves, for every error code; only CANCELLED is left alone |
| TaskStore.Store.PublishDraft | backend/apps/document_generation/artifacts.py:22-55 | the stored draft replaces the pointer only while the task is GENERATING, and is removed again otherwise |
| TaskDispatch.StepKeepsConsistent | backend/apps/document_generation/jobs.py:152-164 | every step of every request, worker and sweep keeps status, operation and confirmed facts in agreement, if and only if it is not a VALIDATION_FAILED report during extraction |
| TaskDispatch.GenerationNeverStrands | backend/apps/document_generation/engine/orchestrator.py:457-465 | VALIDATION_FAILED is raised while sections are generated, and extraction builds no orchestrator; as long as only generation workers report it, the excluded report never happens, from any state in agreement |
| TaskDispatch.DispatcherNeverSkips | backend/apps/document_generation/jobs.py:152-164 | over any run with any number of workers in which only generation workers report VALIDATION_FAILED, the dispatcher runs the extraction body exactly for EXTRACTING and the generation body exactly for QUEUED, and every task in generation has all required facts |
| TaskDispatch.StrandedTaskIsSkippedForever | backend/apps/document_generation/jobs.py:152-164 | what the failure handler alone does not rule out: a QUEUED task of operation EXTRACT with no worker at work keeps its row but for its progress over every run without a stop and without an unreachable queue; no dispatcher runs a body for it and no worker is ever at work on it |
| TaskRuns.FirstReportStrands | backend/apps/document_generation/jobs.py:1057-1069 | what the failure handler would do with VALIDATION_FAILED from an extraction, which no extraction raises: the first such report on any orderly run, by a worker with retries left, would leave the task in exactly that position |
| TaskRuns.ReportStrands | backend/apps/document_generation/jobs.py:1057-1069 | a run from the creation of a task that would end there |
| TaskRuns.LateEnqueueRevivesStopped | backend/apps/document_generation/queues.py:35-52 | prepare, stop, and an enqueue that fails late: the stopped task is FAILED |
| TaskFinality.StopIsFinal | backend/apps/document_generation/services.py:1235-1280 | once a task is CANCELLED with no queue callback outstanding, no run of requests, workers and sweeps changes its row, facts, sections or draft pointer, and the only event appended is its own cancellation |
| TaskFinality.StopIsFinalExactly | backend/apps/document_generation/queues.py:35-52 | a CANCELLED task stays CANCELLED on every run if and only if no queue callback is outstanding: an enqueue that fails late writes FAILED without looking |
| TaskFinality.ExportedIsClean | backend/apps/document_generation/services.py:1741-1922 | in every reachable EXPORTED state, for any number of workers, all sections are locked, none has an error, and they are exactly those of the effective order |
| TaskFinality.ApprovedExportsIffOrdersAgree | backend/apps/document_generation/services.py:1779-1798 | an approved task can be exported if and only if the stored and the inferred section order name the same sections |
| TaskFinality.ExportIsFinal | backend/apps/document_generation/services.py:1741-1922 | EXPORTED with the same document and sections is absorbing for every continuation, when no callback is outstanding and no worker can still fail |
| TaskFinality.ExportIsFinalExactly | backend/apps/document_generation/jobs.py:1019-1090 | EXPORTED lasts over every continuation if and only if no callback is outstanding and no worker can still fail |
| TaskWorkers.AtMostOneWorker | backend/apps/document_generation/queues.py:24-33 | the job-id dedupe keeps at most one worker in flight over every orderly run, with retries, sweeps, killed workers and jobs the queue gives up |
| TaskWorkers.ExportedOnce | backend/apps/document_generation/services.py:1741-1922 | with the dedupe, a task that is EXPORTED once stays EXPORTED with that one document over any later run |
| TaskWorkers.ExportsAgree | backend/apps/document_generation/services.py:1762-1772 | an export that succeeds at the end of any orderly run and one that succeeds after any further run return the same document |
| TaskWorkers.StoppedIsFinalOnOrderlyRuns | backend/apps/document_generation/services.py:1235-1280 | on orderly runs a stop is final without further conditions, whatever follows |
| TaskRuns.TwoWorkersUndoAnExport | backend/apps/document_generation/jobs.py:1019-1090 | a whole run from the creation of a task with a second job beside a stale one: the document is exported, and the failure of the first worker puts the task back to QUEUED |
| TaskSections.EveryStepRevises | backend/apps/document_generation/repositories.py:165-199 | every transaction leaves a section's content alone or writes it under the next revision, and none drops a section |
| TaskSections.RevisionIdentifiesContent | backend/apps/document_generation/repositories.py:164-199 | along any run equal revisions mean equal content, and revisions never decrease |
| TaskSections.EditsDoNotBothSucceed | backend/apps/document_generation/services.py:1355-1367 | two edits with the same expected revision cannot both succeed, however far apart |
| TaskSections.EditLosesAgainstSave | backend/apps/document_generation/services.py:1355-1367 | an editor who read a section before a worker saved it is refused, on every continuation |
| TaskSections.LockedUntilUnlocked | backend/apps/document_generation/services.py:1447-1485 | a locked section stays as it is over any run that does not unlock it |
| TaskSections.PendingAfterValidationFailure | backend/apps/document_generation/jobs.py:986-1003 | after a failed validation exactly the failed section and the template sections that are missing, blank or in error are generated again |
| TaskTrace.EmitAppends | backend/apps/document_generation/workflow_events.py:95-137 | emit numbers the event next, never lowers progress, and a failed event never moves it |
| TaskTrace.EventsAreNumbered | backend/apps/document_generation/workflow_events.py:109-125 | over any run the events of a task are numbered 1..n without gaps and old events are never touched |
| TaskTrace.PollTakesNextPage | backend/apps/document_generation/views.py:494-506 | a poll takes exactly the next page of at most 200 events |
| TaskTrace.ClientSeesPrefix | backend/apps/document_generation/views.py:494-506 | a client polling between arbitrary bursts of steps always holds a prefix of the trace: each event once, in order |
| TaskTrace.ClientCatchesUp | backend/apps/document_generation/views.py:494-506 | once appending pauses, k polls bring everything that k pages hold |
| TaskDrafts.DraftNeverDangles | backend/apps/document_generation/artifacts.py:22-55 | with any number of workers saving drafts step by step, the draft pointer of a live task always leads to a stored file |
| Corpus.NormalizeSectionCodes | backend/apps/document_generation/knowledge_corpus.py:203-211 | the loop keeps the known codes, each once, in order |
| Corpus.NormalizedCodes | backend/apps/document_generation/knowledge_corpus.py:203-211 | normalized codes are distinct and are exactly the known codes asked for |
| Corpus.IndexSections | backend/apps/document_generation/jobs.py:88-120 | the loop over an upload's sections ends with the drafts, the indexed and the skipped sections, or with the first failure |
| Corpus.IndexStaysInside | backend/apps/document_generation/jobs.py:88-120 | every draft belongs to the version and to an indexed section of the upload |
| Corpus.IndexCoversAll | backend/apps/document_generation/jobs.py:88-120 | every section of the upload is indexed or skipped, as often as it was asked for |
| CorpusRuns.SectionsSharedIffOvertaken | backend/apps/document_generation/knowledge_corpus.py:34-123 | over any run of both creation paths, with check and insert as separate steps, uploads of the same content have disjoint sections if and only if no request inserts after an overlapping upload of that content was inserted behind its check |
| CorpusRuns.InsertDisjoint | backend/apps/document_generation/knowledge_corpus.py:88-123 | one insert keeps uploads of a content apart if and only if its request has not been overtaken |
| CorpusRuns.PlansAreSerial | backend/apps/document_generation/technical_solution_corpus.py:184-214 | the row locks of an enqueue keep plans of one content apart, except from a plan that found no upload to lock |
| CorpusRace.RaceSharesSection | backend/apps/document_generation/knowledge_corpus.py:34-123 | from the empty tables: two requests for one section check before either inserts, and both uploads hold that section |
| CorpusRace.RaceOverwritesRows | backend/apps/document_generation/jobs.py:192-250 | indexing both leaves the first upload SUCCEEDED with none of the rows it produced |
| CorpusQueue.OneHolder | backend/apps/document_generation/queues.py:67-84 | the job id made of the upload's keeps at most one worker per upload over every orderly run, with retries, crashes, abandoned jobs and enqueues that fail late |
| CorpusQueue.HeldIsProcessingIff | backend/apps/document_generation/queues.py:86-103 | over every orderly run a held upload is in PROCESSING all the time if and only if no enqueue fails while a worker holds its upload |
| CorpusRuns.IndexedRowsAreItsChunks | backend/apps/document_generation/jobs.py:192-250 | as long as no request is overtaken, the indexed rows for a SUCCEEDED upload's sections are exactly the chunks of its last successful run |
| CorpusQueue.SuccessIsFinalIff | backend/apps/document_generation/jobs.py:192-285 | at the end of any orderly run without an overtaken request, a SUCCEEDED upload and its rows stay over every such continuation if and only if no enqueue is outstanding for it |
| CorpusQueue.CrashedUploadIsStuckIff | backend/apps/document_generation/jobs.py:62-86 | when the holder of an upload dies without a word, the upload stays in PROCESSING over every continuation if and only if no enqueue is outstanding for it |
| CorpusQueue.ForgottenIff | backend/apps/document_generation/queues.py:67-84 | at the end of any orderly run a QUEUED upload stays QUEUED over every orderly continuation if and only if it has no waiting or started job and no enqueue outstanding |
| CorpusLosses.RetryIsLost | backend/apps/document_generation/knowledge_corpus.py:149-195 | a run from the empty tables: a retry between the failure of a worker and the end of its job finds the job started and leaves it; the upload stays QUEUED over every orderly continuation |
| CorpusLosses.LateEnqueueDropsRows | backend/apps/document_generation/queues.py:86-103 | a run from the empty tables: a retry's enqueue fails after the rescheduled job has claimed the upload; it is marked FAILED and the worker's rows are dropped |
| CorpusLosses.LateEnqueueUndoesSuccess | backend/apps/document_generation/queues.py:86-103 | the same run with the worker done first: its SUCCEEDED upload is marked FAILED |
| CorpusStore.Store.ReservedSections | backend/apps/document_generation/technical_solution_corpus.py:185-200 | the loop over uploads finds exactly the sections reserved for a content hash |
| CorpusStore.Store.CheckUpload | backend/apps/document_generation/knowledge_corpus.py:33-75 | a request passes the check if and only if some known section is asked for, none is reserved or indexed for that content, and there is an upload or the folder to store in |
| CorpusStore.Store.InsertUpload | backend/apps/document_generation/knowledge_corpus.py:77-123 | an upload is made with the codes that were checked, whatever has been inserted since |
| CorpusStore.Store.CheckPlan | backend/apps/document_generation/technical_solution_corpus.py:184-206 | a plan keeps the sections that are still free and holds the uploads of its content until it inserts |
| CorpusStore.Store.ScanDocument | backend/apps/document_generation/technical_solution_corpus.py:45-172 | a plan to queue names exactly the recognized sections nobody has, and some of them yields chunks |
| CorpusStore.FreshPlanEnqueuedWhole | backend/apps/document_generation/technical_solution_corpus.py:185-214 | a plan enqueued before anything else happens is enqueued whole: scan and re-check agree |
| CorpusStore.Store.QueueUpload | backend/apps/document_generation/queues.py:67-111 | a live job is kept and any other replaced; when the queue cannot be reached the upload becomes FAILED whatever it was |
| CorpusStore.Store.RetryUpload | backend/apps/document_generation/knowledge_corpus.py:149-195 | only a FAILED upload is retried, with cleared results |
| CorpusStore.Store.ClaimUpload | backend/apps/document_generation/jobs.py:62-86 | a claim succeeds only from QUEUED or FAILED |
| CorpusStore.Store.ProcessUpload | backend/apps/document_generation/jobs.py:88-250 | the body of a worker: success replaces the rows of the upload's sections, any failure leaves FAILED |
| Forest.IsDescendant | backend/apps/folders/services.py:198-204 | on a forest the walk up ends and decides exactly strict descent |
| Forest.ReparentKeepsForest | backend/apps/folders/services.py:77-114 | re-parenting any set of folders to one target keeps a forest a forest when the way up from the target meets none of them |
| FolderGraph.MoveCheckIsExact | backend/apps/folders/services.py:174-190 | a move inside a project keeps the forest if and only if it is not to the folder itself or a descendant |
| FolderGraph.UpdateKeepsStrictSharingExactly | backend/apps/folders/services.py:37-73 | an update keeps archive containers the only folders of a project below public ones if and only if it does not change the code of one |
| FolderRuns.RunKeepsSound | backend/apps/folders/services.py:14-138 | over any run of folder, project and document requests the folder graph is a forest, a child belongs to its parent's project or hangs below a public folder, and every document has its folder |
| FolderRuns.RunKeepsStrictSharing | backend/apps/projects/services.py:402-435 | over any run without such a code change, only archive containers hang below public folders |
| FolderRuns.RunKeepsOwned | backend/apps/documents/services.py:68-120 | in every reachable world a document lies in a folder of its own project |
| FolderRuns.StepFreezes | backend/apps/folders/services.py:167-171 | no request but its own unarchive or delete changes a folder row of an archived project |
| FolderRuns.UnarchiveUndoesArchive | backend/apps/projects/services.py:305-328 | after archive, any requests, and unarchive, every folder row of the project is as before if and only if the container had no child of the project; none is new; the container is gone if and only if no document lies in it |
| FolderStore.Tables.CreateFolder | backend/apps/folders/services.py:14-33 | the new rows or the first error, in the order of the checks |
| FolderStore.Tables.UpdateFolder | backend/apps/folders/services.py:37-73 | the new row or the first error |
| FolderStore.Tables.MoveFolder | backend/apps/folders/services.py:77-114 | the new row or the first error; the loop's answer is strict descent |
| FolderStore.Tables.DisableFolder | backend/apps/folders/services.py:118-138 | a folder with active children or live documents is refused |
| FolderStore.Tables.GetArchiveRoot | backend/apps/projects/services.py:363-399 | get or create of the archive root, least id first, with its fields repaired |
| FolderStore.Tables.GetYearFolder | backend/apps/projects/services.py:331-360 | get or create of the year folder; several matches are an error |
| FolderStore.Tables.GetContainer | backend/apps/projects/services.py:402-435 | get or create of the project's container; several matches are an error |
| FolderStore.Tables.ArchiveProject | backend/apps/projects/services.py:97-116 | archiving in one transaction: an error on the way leaves every row alone |
| FolderStore.Tables.RestoreFolders | backend/apps/projects/services.py:316-328 | frees the container's children and drops the container when nothing is left in it |
| FolderStore.Tables.UnarchiveProject | backend/apps/projects/services.py:120-138 | unarchiving in one transaction |
| FolderStore.Tables.EnsureStandardFolders | backend/apps/projects/services.py:287-302 | a new project gets one top-level folder for every standard definition |
| ProjectDeletion.FolderDepth | backend/apps/projects/services.py:202-210 | the memoised recursion ends and returns the true depth inside the project |
| ProjectDeletion.DeepestFirstSorts | backend/apps/projects/services.py:212-213 | the folders come deepest first |
| ProjectDeletion.DropInOrder | backend/apps/projects/services.py:197-213 | no folder is dropped while it still has a child or a document: the database never refuses |
| ProjectDeletion.Delete | backend/apps/projects/services.py:142-213 | the request with its checks, loops and protected references does exactly what it should, whatever order the rows are listed in |
| ProjectDeletion.DeleteKeepsSound | backend/apps/projects/services.py:142-191 | what is left is a sound world, nothing outside the project changes, and only removed documents are lost |
| RepairStore.IsDescendantOf | backend/apps/documents/repair.py:244-252 | the walk with its seen set ends on any parent graph, cyclic or not, and decides what lies below what |
| RepairStore.FolderChain | backend/apps/documents/repair.py:229-237 | the chain from the top to the folder, stopping before a repeat |
| RepairStore.FindStandardRoot | backend/apps/documents/repair.py:212-219 | the first folder of the chain that is a standard root |
| RepairStore.EnsureProjectRoot | backend/apps/documents/repair.py:133-174 | finds the standard folder below the container, else anywhere in the project, moves and repairs it, or creates it |
| RepairStore.EnsureChild | backend/apps/documents/repair.py:177-197 | finds or creates the child of a name and activates it |
| RepairStore.EnsureTarget | backend/apps/documents/repair.py:106-130 | the chain below the standard root is rebuilt below the container |
| RepairStore.RepairOne | backend/apps/documents/repair.py:43-93 | one document, judged on its folder and that folder's parent as they were read before the first repair |
| RepairStore.RepairArchivedFolders | backend/apps/documents/repair.py:29-95 | the whole command in one transaction: its result and rows are those specified, or the error with every row as before |
| RepairGraph.RepairKeepsSound | backend/apps/documents/repair.py:29-95 | any completed repair leaves a forest, moves no row to another project, drops no row, and leaves every document in a folder |
| RepairHomes.HomeStaysFirstIff | backend/apps/documents/repair.py:106-130 | copying a chain below a project's container keeps that container its first active one if and only if no folder that is actually copied carries the container's code with a smaller sort order |
| RepairHomes.DocumentIsPlaced | backend/apps/documents/repair.py:106-197 | one document's repair leaves other projects alone; in its own either everything that was in the container stays there and the document's folder joins it, or a copied folder has taken the container's place and only that document's folder lies in it |
| RepairCompletes.PlaceOkIff | backend/apps/projects/services.py:331-435 | placing a document raises if and only if its year has two folders below the archive root or its project two containers |
| RepairCompletes.RepairCompletesIff | backend/apps/documents/repair.py:29-95 | a repair completes if and only if every document it has to move belongs to a project with one folder for its year and one container at the start, and no document of that project before it copied a folder with the container's code |
| RepairCompletes.CleanRepairCompletesIff | backend/apps/documents/repair.py:29-95 | told from the rows at the start: when no public folder carries a container's code and no container is inactive, it completes if and only if every project with a document to move has one folder for its year and one container |
| RepairProof.RepairSettlesIff | backend/apps/documents/repair.py:29-95 | after a completed repair every live document of a dated archived project lies in its project's active container if and only if no container was displaced by a copied folder while another document of its project was due |
| RepairProof.SecondRunIsEmptyIff | backend/apps/documents/repair.py:29-95 | a second run, real or dry, returns no repairs and changes nothing under exactly that condition |
| RepairClean.CleanRepairSettles | backend/apps/documents/repair.py:29-95 | what can be checked beforehand: when no public folder carries a container's code, a completed repair settles everything and a second run finds nothing |
| RepairProof.DryRunLists | backend/apps/documents/repair.py:61-66 | a dry run changes nothing and lists exactly the documents that are out of place |
| RepairLimits.RepairCanUnsettle | backend/apps/documents/repair.py:177-197 | rows in which a public folder below a standard root carries a container's code: its copy displaces the container, and a settled document is settled no more |
| FolderClosure.FolderAndDescendantIds | backend/apps/folders/personnel.py:50-60 | the set loop ends on any parent graph with exactly what is reachable from the roots |
| FolderClosure.DescendantsOf | backend/apps/documents/views.py:470-482 | the list loop ends with exactly what is reachable through active children, without duplicates, roots first |
| FolderClosure.DescendantFolderIds | backend/apps/documents/views.py:443-482 | the same for a request: the folder first, with its equivalent standard roots or the archive root's children as further roots |
| FolderTree.BuildTree | backend/apps/folders/selectors.py:67-89 | every list of children and the list of roots hold exactly the rows shown there, in the given order |
| FolderTree.EachFolderOnce | backend/apps/folders/selectors.py:67-89 | a walk through the nested lists meets each folder exactly once if its way up ends, and never if it runs into a cycle |
| Documents.RunConserves | backend/apps/documents/services.py:68-453 | over any run of top-level requests, succeeding or failing, each document's versions are exactly 1..n with version n current, and the stored files are exactly the versions' paths, each used once |
| Documents.VersionsAreImmutable | backend/apps/documents/services.py:132-186 | a stored version never changes and stays exactly as long as its document |
| Documents.ChangesDoNotBothSucceed | backend/apps/documents/services.py:808-820 | of two changes that expect the same timestamp at most one succeeds, as long as every version added to that document in between reads the clock above it |
| Documents.SecondSucceedsIffClockBehind | backend/apps/documents/services.py:159-174 | the condition is exact: the second change can succeed somewhere along the run, or from there without another version, if and only if a version of this document was added with the clock at or below the expected timestamp |
| Documents.EmptyConserves | backend/apps/documents/services.py:68-453 | every run from the empty library conserves versions and files |
| Documents.ClockBehindLetsBothSucceed | backend/apps/documents/services.py:159-174 | with the clock behind, an added version brings an old timestamp back and both changes succeed |
| DocumentStore.Store.CreateDocument | backend/apps/documents/services.py:68-129 | the file is written first and removed again when the transaction fails |
| DocumentStore.Store.LatestNumber | backend/apps/documents/services.py:155-160 | the loop finds the largest version number, or 0 |
| DocumentStore.Store.AddVersion | backend/apps/documents/services.py:132-186 | the next version, or the refusal met first, with the file removed again |
| DocumentStore.Store.SetDeleted | backend/apps/documents/services.py:339-416 | soft delete and restore against the expected timestamp |
| DocumentStore.Store.Touch | backend/apps/documents/services.py:813-820 | a change moves the timestamp strictly forward, whatever the clock says |
| DocumentStore.Store.PermanentlyDelete | backend/apps/documents/services.py:419-453 | rows go first, then exactly the document's files |
| StoragePaths.CanonicalIs | backend/common/storage.py:53-64 | a path is accepted if and only if, read with forward slashes, all its parts are names and its first part holds no drive, and it stands for those parts |
| StoragePaths.CanonicalIsFixed | backend/common/storage.py:53-64 | canonical paths are their own canonical form |
| StoragePaths.AcceptedStaysInside | backend/common/storage.py:45-64 | an accepted path leads to a place below the storage root and determines it |
| StoragePaths.BuiltIsCanonical | backend/common/storage.py:78-79 | a generated path is always accepted as it stands |
| ArchiveNames.ComponentIsSafe | backend/apps/documents/services.py:720-724 | a component is never empty, has no separator or control character and no blank or dot at its ends; a safe name stays as it is |
| ArchiveNames.NumberedApart | backend/apps/documents/services.py:736-744 | different counters give entries that differ even when case is ignored |
| ArchiveNames.FirstFree | backend/apps/documents/services.py:736-744 | the counter loop ends for any finite set of used names, on the first free counter |
| ArchiveNames.UniqueArchivePath | backend/apps/documents/services.py:727-744 | the entry is new when case is ignored, lies in its directory under a safe name, and is the plain name when that is free |
| ArchiveNames.ArchivePaths | backend/apps/documents/services.py:597-632 | all entries of one archive differ pairwise when case is ignored |
| ArchiveNames.UniqueArchiveName | backend/apps/documents/services.py:888-901 | the plain base name when free, otherwise the first free numbered one |
| ArchiveNames.BatchNames | backend/apps/documents/services.py:491-497 | all names of a batch archive differ pairwise |
| ArchivePaths.Resolver.Resolve | backend/apps/documents/services.py:693-713 | the memoised walk ends on any parents, cyclic or not; every path starts at the root path followed by safe names, and is the one the definition gives wherever it gives one |
| ArchivePaths.Resolver.ResolveAll | backend/apps/documents/services.py:686-717 | every listed folder gets such a path |
| Text.TermLiesInOnePiece | backend/apps/document_generation/engine/canonical_facts.py:508-517 | a term without the separator is found in a joined text if and only if one piece contains it |
| FactTerms.CodesOfJoined | backend/apps/document_generation/engine/canonical_facts.py:508-517 | the codes of the joined text are those of the single texts, no more and no fewer |
| FactTerms.CodesAreAllowed | backend/apps/document_generation/engine/canonical_facts.py:96-104 | there are codes if and only if an entry is hit, and all of them are codes the validator knows |
| FactTerms.EvidenceIsNotBlank | backend/apps/document_generation/engine/canonical_facts.py:217-222 | the stripped, cut text of a block that names a risk is acceptable evidence |
| CanonicalFacts.FirstMatchingBlock | backend/apps/document_generation/engine/canonical_facts.py:537-542 | returns the first block that names a term, when there is one |
| CanonicalFacts.MatchesAreSaid | backend/apps/document_generation/engine/canonical_facts.py:508-542 | codes found in joined blocks are acceptable, and exist if and only if some block says so |
| CanonicalFacts.MethodsAreSaid | backend/apps/document_generation/engine/canonical_facts.py:520-542 | when methods are found some block names one; PAUT is found if and only if a block names it, UT if and only if some block names it once the phased-array terms are erased from that block alone |
| CanonicalFacts.ErasingMakesTerms | backend/apps/document_generation/engine/canonical_facts.py:520-534 | a text in which erasing the phased-array terms makes UT appear although no block names it |
| FactEnrichment.RiskItems | backend/apps/document_generation/engine/canonical_facts.py:207-222 | one acceptable item for every risk some block names |
| FactEnrichment.BestScopeBlock | backend/apps/document_generation/engine/canonical_facts.py:474-491 | the first of the blocks with the highest score, if that is at least six |
| FactEnrichment.PromptSays | backend/apps/document_generation/engine/canonical_facts.py:262-272 | a term found in the joined, label-stripped, stripped requirements stands in one of their blocks |
| FactEnrichment.ComponentCandidate | backend/apps/document_generation/engine/canonical_facts.py:162-181 | a candidate exists if and only if a scope block names a component; the search for its block never runs out |
| FactEnrichment.MethodCandidate | backend/apps/document_generation/engine/canonical_facts.py:183-204 | a candidate exists if and only if methods are found; the search for its block never runs out |
| FactEnrichment.RiskCandidate | backend/apps/document_generation/engine/canonical_facts.py:206-233 | the risk candidate is acceptable and anchored in a block that names a risk, if it lists any |
| FactEnrichment.PromptComponents | backend/apps/document_generation/engine/canonical_facts.py:306-318 | the same for the user's own requirements |
| FactEnrichment.PreferredCandidates | backend/apps/document_generation/engine/canonical_facts.py:237-357 | at most one candidate for each field, each acceptable and anchored in a block that says so |
| FactEnrichment.AliasIsGoodIff | backend/apps/document_generation/engine/canonical_facts.py:556-570 | when the copy of an older scope candidate is acceptable |
| FactEnrichment.Enrich | backend/apps/document_generation/engine/canonical_facts.py:107-234 | what is kept, what is preferred and what is added: additions fill missing fields once each, are acceptable and anchored except the copy, and a field stays missing only if no block could fill it |
| Composition.MatchAlwaysHasColumns | backend/apps/document_generation/engine/content_composition.py:85-114 | headers that match a key have a column for every group of core terms, so the check after the match never fires |
| Composition.CleanRowsAre | backend/apps/document_generation/engine/content_composition.py:104-138 | clean rows are pairwise distinct, as wide as the header, blank in specific and filled in core columns, and stand for exactly the usable source rows |
| Composition.CoreAndSpecificApart | backend/apps/document_generation/engine/content_composition.py:116-132 | a nonempty table keeps core and project-specific columns disjoint |
| Composition.MissingCells | backend/apps/document_generation/engine/content_composition.py:133-137 | missing cells number rows times project-specific columns |
| Composition.CleanReferenceRows | backend/apps/document_generation/engine/content_composition.py:104-138 | the loop with its seen set computes the clean rows and the missing cells |
| Composition.PersonnelCells | backend/apps/document_generation/engine/content_composition.py:141-200 | the nested loops compute the personnel rows and the missing cells |
| Composition.BestIsBest | backend/apps/document_generation/engine/content_composition.py:222-240 | no applicable reference scores higher than the chosen one, and none before it as high |
| Composition.ChosenHasWidth | backend/apps/document_generation/engine/content_composition.py:222-252 | every chosen table is as wide as its header; one from a reference has at least two rows, all distinct |
| Composition.ComposeSection | backend/apps/document_generation/engine/content_composition.py:255-341 | the loop over the keys computes tables, decisions and missing items |
| Composition.ComposeIsIdempotent | backend/apps/document_generation/engine/content_composition.py:255-341 | composing a composed section in the same context changes nothing |
| Composition.DefaultKeysShowNothing | backend/apps/document_generation/engine/content_composition.py:258-276 | the default keys of a section never show a table |
| Backup.FileStorageManifest | backend/apps/system/services.py:463-481 | one entry for every file of the tree outside .tmp |
| Backup.AddFilesRoot | backend/apps/system/services.py:448-460 | one member for every included path |
| Backup.VerifyContents | backend/apps/system/services.py:535-576 | accepts if and only if dump and entries match, the regular members are the listed ones, and count and size agree |
| Backup.VerifyArchive | backend/apps/system/services.py:251-285 | accepts if and only if the digest is the expected one and the archive is acceptable |
| BackupProof.EntryIsCarried | backend/apps/system/services.py:550-571 | every entry of an accepted archive is a regular member with its digest and size |
| BackupProof.AcceptedAgree | backend/apps/system/services.py:535-596 | two archives accepted for one manifest carry the same files and the same dump: none can be added, dropped or altered |
| BackupProof.AcceptedIffSame | backend/apps/system/services.py:408-481 | a manifest of one tree and an archive of another are accepted together if and only if dump and files are the same |
| BackupProof.UnchangedTreeVerifies | backend/apps/system/services.py:408-481 | an unchanged tree verifies if and only if no file in it is stored as a link |
| BackupWitness.LinkFreeTreeVerifies | backend/apps/system/services.py:408-481 | a digest and a manifest text that meet the assumptions exist, and with them the backup of every tree without links is accepted |

## Left out

- RepairProof.RepairSettlesIff: needs that documents of archived projects lie in public folders or folders of their project, which `FolderRuns.RunKeepsOwned` shows for reachable worlds.
- RepairCompletes.RepairCompletesIff: needs the same.
- TaskWorkers.AtMostOneWorker: orderly runs are those in which the queue starts a job only while it waits and gives one up only when its worker is gone, and the enqueue after a commit is made before the next step touches the task; `TaskRuns.TwoWorkersUndoAnExport` shows what happens otherwise.
- DocumentStore.Store.CreateDocument: a process that dies between writing the file and committing leaves the file behind; requests are modelled as succeeding or failing, not as dying, and as top-level transactions.
- BackupProof.AcceptedAgree: says nothing about links and about members outside `files/`, which verification does not look at.
- Roles, permissions, audit entries, notifications and message texts, except where a permission decides the outcome of a request, as a parameter.
- Creation of tasks, prompts and templates, and the combined requests `start_compilation_pipeline` and `confirm_and_request_generation`, which are two requests in a row.
- Retrieval, parsing, rendering and the language model: the worker body is arbitrary. Conversation metadata of regenerated sections.
- TaskStore.Store.RecoverTask: one task at a time; the counts the sweep returns over all tasks are not modelled.
- The queue's own storage: job persistence, time-outs and the signal to a running worker.
- CorpusStore.Store.CheckUpload: the two reads of the check, uploads and indexed sections, are one step; whether the document store accepts a new file is a parameter of the insert.
- CorpusStore.Store.CheckPlan: the row locks of a plan hold back other plans only; claims and retries may come earlier in the model than in the database, so more runs are covered, not fewer.
- CorpusQueue.OneHolder: orderly runs are those in which a job starts only while it waits and ends only when nobody works for it; a job may be scheduled again any number of times, where the queue allows two.
- FolderStore.Tables.EnsureStandardFolders: for a project without such folders, as when it is new; `update_or_create` on a project that already has them is not modelled.
- Concurrent public-folder moves: each request is one step.
- Locations, access grants, personnel profiles and the rest of the folder views.
- Titles, duplicate-content checks and access levels of documents: one flag says whether the request is acceptable.
- Path texts in repair results. As the code stands, a real repair reports the target as the source folder, because it reads the source after moving the document; the model keeps that.
- The two regular expressions of the prompt (project name, work scope) and the text form of reference tables (`_table_rows`) are parameters. Confidence values and source positions other than the anchoring block are not modelled.
- The order in which missing cells of one row are listed follows the column order here; the code iterates over a set.
- Composition.PersonnelCells: a person's values after their fallbacks (role from the prompt, certificate text, contact) are given.
- Reading through links inside an archive: what a link yields is a parameter.
- The backup lock, dumps, off-site copies and retention.
