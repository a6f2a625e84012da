/** Whole runs of one task from its creation: where the exact conditions of the other modules fail. */
module TaskRuns {
  import opened Prelude
  import opened Text
  import opened TaskModel
  import opened TaskDispatch
  import opened TaskWorkers

  /** States that follow one another by the steps. */
  ghost predicate Traces(cfg: Config, states: seq<State>, steps: seq<Step>) {
    |states| == |steps| + 1 && forall i :: 0 <= i < |steps| ==> Next(cfg, states[i], steps[i]) == states[i + 1]
  }

  lemma {:induction false} TraceIsRun(cfg: Config, states: seq<State>, steps: seq<Step>)
    requires Traces(cfg, states, steps)
    ensures Run(cfg, states[0], steps) == states[|steps|]
    decreases |steps|
  {
    if steps != [] {
      TraceIsRun(cfg, states[1..], steps[1..]);
    }
  }

  // ---------------------------------------------------------------- one task

  const SECTION: Code := "a"

  /** A template with one section and no required facts, and a prompt to work from. */
  const ONE_SECTION := Config([], [SECTION], [SECTION], true)

  const START := Fresh(ONE_SECTION, [])

  const PREPARED := START.(
    task := START.task.(status := Extracting, progress := 10), callbacks := 1,
    events := [Event(1, Initialized, QueueExtractionTool, false)])

  lemma Prepares()
    ensures Next(ONE_SECTION, START, User(RPrepare)) == PREPARED
  {
    assert START.events + [Event(1, Initialized, QueueExtractionTool, false)] == [Event(1, Initialized, QueueExtractionTool, false)];
  }

  // ---------------------------------------------------------------- a stop that does not hold

  const STOPPED := PREPARED.(task := PREPARED.task.(status := Cancelled), stops := 1)

  const LATE: seq<Step> := [User(RPrepare), User(RStop), Callback(false)]

  /** The task is prepared and stopped before its enqueue is made; the enqueue fails and marks it FAILED. */
  lemma LateEnqueueRevivesStopped()
    ensures Run(ONE_SECTION, START, LATE[..2]).task.status == Cancelled
    ensures Run(ONE_SECTION, START, LATE).task.status == Failed
  {
    Prepares();
    assert Next(ONE_SECTION, PREPARED, User(RStop)) == STOPPED;
    var failed := Next(ONE_SECTION, STOPPED, Callback(false));
    TraceIsRun(ONE_SECTION, [START, PREPARED, STOPPED], LATE[..2]);
    TraceIsRun(ONE_SECTION, [START, PREPARED, STOPPED, failed], LATE);
  }

  // ---------------------------------------------------------------- a stranded task

  const WAITING := PREPARED.(callbacks := 0, job := Waiting, retries := QUEUE_RETRIES)
  const SPAWNED := WAITING.(workers := map[0 := Worker(Extract, Claiming)], job := Started)
  const EXTRACTING := SPAWNED.(workers := map[0 := Worker(Extract, Running)], task := SPAWNED.task.(attempts := 1))

  const TO_EXTRACTION: seq<Step> := [User(RPrepare), Callback(true), Spawned(0), Work(0, AClaim)]

  lemma FirstSpawns()
    ensures Next(ONE_SECTION, PREPARED, Callback(true)) == WAITING
    ensures Next(ONE_SECTION, WAITING, Spawned(0)) == SPAWNED
    ensures Next(ONE_SECTION, SPAWNED, Work(0, AClaim)) == EXTRACTING
  {
  }

  lemma Extracts()
    ensures Run(ONE_SECTION, START, TO_EXTRACTION) == EXTRACTING
    ensures OrderlyRun(ONE_SECTION, START, TO_EXTRACTION) && NeverStrands(ONE_SECTION, START, TO_EXTRACTION)
  {
    Prepares();
    FirstSpawns();
    TraceIsRun(ONE_SECTION, [START, PREPARED, WAITING, SPAWNED, EXTRACTING], TO_EXTRACTION);
    assert TO_EXTRACTION[1..] == [Callback(true), Spawned(0), Work(0, AClaim)];
    assert TO_EXTRACTION[1..][1..] == [Spawned(0), Work(0, AClaim)];
    assert TO_EXTRACTION[1..][1..][1..] == [Work(0, AClaim)];
  }

  const INVALID := Failure(ValidationFailed, [], "", [])

  lemma ReportIsFailure(cfg: Config, st: State, report: Step)
    requires report.Work? && report.action.AFail?
    ensures Next(cfg, st, report) == WorkerFail(cfg, st, report.w, report.action.failure)
  {
  }

  lemma ReportLeavesStranded(cfg: Config, st: State, w: WorkerId, f: Failure)
    requires Strands(st, Work(w, AFail(f))) && !RevisionRecovery(f)
    requires st.workers[w].kind == Extract && forall v <- st.workers :: v == w
    ensures Stranded(WorkerFail(cfg, st, w, f))
  {
    assert WorkerFail(cfg, st, w, f).workers == st.workers[w := st.workers[w].(phase := Reporting)];
  }

  /** After any orderly run in which it is the first such report, a validation failure reported during
    * extraction, by a worker that has retries left, strands the task. */
  lemma FirstReportStrands(cfg: Config, facts: seq<Fact>, steps: seq<Step>, report: Step)
    requires OrderlyRun(cfg, Fresh(cfg, facts), steps) && NeverStrands(cfg, Fresh(cfg, facts), steps)
    requires var st := Run(cfg, Fresh(cfg, facts), steps);
             Strands(st, report) && !RevisionRecovery(report.action.failure)
    ensures Stranded(Next(cfg, Run(cfg, Fresh(cfg, facts), steps), report))
  {
    var st := Run(cfg, Fresh(cfg, facts), steps);
    RunKeepsSingle(cfg, Fresh(cfg, facts), steps);
    FreshIsConsistent(cfg, facts);
    RunKeepsConsistent(cfg, Fresh(cfg, facts), steps);
    ReportLeavesStranded(cfg, st, report.w, report.action.failure);
    ReportIsFailure(cfg, st, report);
  }

  /** And such runs exist. */
  lemma ReportStrands()
    ensures Stranded(Run(ONE_SECTION, START, TO_EXTRACTION + [Work(0, AFail(INVALID))]))
  {
    Extracts();
    assert Strands(EXTRACTING, Work(0, AFail(INVALID)));
    FirstReportStrands(ONE_SECTION, [], TO_EXTRACTION, Work(0, AFail(INVALID)));
    RunAppend(ONE_SECTION, START, TO_EXTRACTION, [Work(0, AFail(INVALID))]);
    RunOne(ONE_SECTION, EXTRACTING, Work(0, AFail(INVALID)));
  }

  // ---------------------------------------------------------------- an export that does not hold

  // The stages of the run below, each with what the rest of the run needs to know.

  ghost predicate AtExtraction(st: State) {
    st.task.status == Extracting && st.task.operation == Extract && !st.task.deleted && st.projectActive &&
    st.callbacks == 0 && st.job == Started && st.workers == map[0 := Worker(Extract, Running)] && st.sections == map[]
  }

  ghost predicate AtRequest(st: State) {
    st.task.status == Queued && st.task.operation == Generate && !st.task.deleted && st.projectActive &&
    st.callbacks == 1 && st.job == Over && st.workers == map[] && st.sections == map[]
  }

  ghost predicate AtFirst(st: State) {
    st.task.status == Generating && st.task.operation == Generate && !st.task.deleted && st.projectActive &&
    st.callbacks == 0 && st.job == Started && st.retries == QUEUE_RETRIES &&
    st.workers == map[1 := Worker(Generate, Running)] && st.sections == map[]
  }

  ghost predicate AtBoth(st: State) {
    st.task.status == Generating && st.task.operation == Generate && !st.task.deleted && st.projectActive &&
    st.retries == QUEUE_RETRIES && st.sections == map[] &&
    st.workers == map[1 := Worker(Generate, Running), 2 := Worker(Generate, Running)]
  }

  /** The document is written and the first worker is still at work. */
  ghost predicate AtReview(st: State, status: Status, locked: bool) {
    st.task.status == status && st.task.operation == Generate && !st.task.deleted && st.projectActive &&
    st.retries == QUEUE_RETRIES && st.sections == map[SECTION := WRITTEN.(locked := locked)] &&
    st.workers == map[1 := Worker(Generate, Running), 2 := Worker(Generate, Reporting)]
  }

  const FORM := Structure(SECTION, ["x"], [], [], 0)
  const WRITTEN := Section("t", "x", Some(FORM), [], [], 1, false)

  const TO_REQUEST: seq<Step> := [
    Work(0, ACommitExtraction([], [])), Work(0, AEnd(Returned)), User(RConfirm([], Located([]))), User(RGenerate)]

  ghost predicate AtConfirmation(st: State) {
    st.task.status == NeedsConfirmation && !st.task.deleted && st.projectActive &&
    st.callbacks == 0 && st.job == Over && st.workers == map[] && st.sections == map[]
  }

  lemma ExtractionEnds(st: State)
    requires AtExtraction(st)
    ensures AtConfirmation(Next(ONE_SECTION, Next(ONE_SECTION, st, TO_REQUEST[0]), TO_REQUEST[1]))
  {
  }

  lemma Requests(st: State)
    requires AtExtraction(st)
    ensures AtRequest(Run(ONE_SECTION, st, TO_REQUEST))
  {
    var extracted := Next(ONE_SECTION, st, TO_REQUEST[0]);
    var ended := Next(ONE_SECTION, extracted, TO_REQUEST[1]);
    ExtractionEnds(st);
    var ready := Next(ONE_SECTION, ended, TO_REQUEST[2]);
    TraceIsRun(ONE_SECTION, [st, extracted, ended, ready, Next(ONE_SECTION, ready, TO_REQUEST[3])], TO_REQUEST);
  }

  const TO_FIRST: seq<Step> := [Callback(true), Spawned(1), Work(1, AClaim)]

  lemma FirstStarts(st: State)
    requires AtRequest(st)
    ensures AtFirst(Run(ONE_SECTION, st, TO_FIRST))
  {
    var queued := Next(ONE_SECTION, st, TO_FIRST[0]);
    var spawned := Next(ONE_SECTION, queued, TO_FIRST[1]);
    TraceIsRun(ONE_SECTION, [st, queued, spawned, Next(ONE_SECTION, spawned, TO_FIRST[2])], TO_FIRST);
  }

  /** A sweep takes worker 1 for dead and worker 2 starts beside it. */
  const TO_BOTH: seq<Step> := [Recovered(true), Callback(true), Spawned(2), Work(2, AClaim)]

  lemma SecondStarts(st: State)
    requires AtFirst(st)
    ensures AtBoth(Run(ONE_SECTION, st, TO_BOTH))
  {
    var swept := Next(ONE_SECTION, st, TO_BOTH[0]);
    var queued := Next(ONE_SECTION, swept, TO_BOTH[1]);
    var spawned := Next(ONE_SECTION, queued, TO_BOTH[2]);
    TraceIsRun(ONE_SECTION, [st, swept, queued, spawned, Next(ONE_SECTION, spawned, TO_BOTH[3])], TO_BOTH);
  }

  const TO_REVIEW: seq<Step> := [Work(2, ASave(SECTION, "t", "x", FORM, [])), Work(2, ACommitGeneration)]

  lemma SecondFinishes(st: State)
    requires AtBoth(st)
    ensures AtReview(Run(ONE_SECTION, st, TO_REVIEW), ReviewRequired, false)
  {
    var saved := Next(ONE_SECTION, st, TO_REVIEW[0]);
    TraceIsRun(ONE_SECTION, [st, saved, Next(ONE_SECTION, saved, TO_REVIEW[1])], TO_REVIEW);
  }

  lemma OrderIsOne()
    ensures CodesOf([SECTION]) == {SECTION}
  {
    assert [SECTION][0] in CodesOf([SECTION]);
  }

  lemma Locks(st: State)
    requires AtReview(st, ReviewRequired, false)
    ensures AtReview(Next(ONE_SECTION, st, User(RLockAll)), ReviewRequired, true)
  {
    assert Next(ONE_SECTION, st, User(RLockAll)).sections == map[SECTION := WRITTEN.(locked := true)];
  }

  lemma Submits(st: State)
    requires AtReview(st, ReviewRequired, true)
    ensures AtReview(Next(ONE_SECTION, st, User(RSubmit)), PendingApproval, true)
  {
    OrderIsOne();
    assert st.sections.Keys == {SECTION};
  }

  lemma Approves(st: State)
    requires AtReview(st, PendingApproval, true)
    ensures AtReview(Next(ONE_SECTION, st, User(RApprove)), Approved, true)
  {
    OrderIsOne();
    assert st.sections.Keys == {SECTION};
  }

  const SMOOTH := ExportWorld(true, None, false)

  lemma Exports(st: State)
    requires AtReview(st, Approved, true)
    ensures AtReview(Next(ONE_SECTION, st, User(RExport("k", SMOOTH))), Exported, true)
  {
    OrderIsOne();
    assert st.sections.Keys == {SECTION};
    assert !IsSpace("k"[0]) && Strip("k") == "k";
  }

  const TO_EXPORT: seq<Step> := [User(RLockAll), User(RSubmit), User(RApprove), User(RExport("k", SMOOTH))]

  lemma IsExported(st: State)
    requires AtReview(st, ReviewRequired, false)
    ensures AtReview(Run(ONE_SECTION, st, TO_EXPORT), Exported, true)
  {
    Locks(st);
    var locked := Next(ONE_SECTION, st, TO_EXPORT[0]);
    Submits(locked);
    var submitted := Next(ONE_SECTION, locked, TO_EXPORT[1]);
    Approves(submitted);
    var approved := Next(ONE_SECTION, submitted, TO_EXPORT[2]);
    Exports(approved);
    TraceIsRun(ONE_SECTION, [st, locked, submitted, approved, Next(ONE_SECTION, approved, TO_EXPORT[3])], TO_EXPORT);
  }

  /** A whole run from the creation of the task: extraction, confirmation, generation by worker 1, a sweep that
    * declares it stale, a second job beside it that finishes, review, approval and export. */
  const SHARED_EXPORT: seq<Step> := TO_EXTRACTION + TO_REQUEST + TO_FIRST + TO_BOTH + TO_REVIEW + TO_EXPORT

  lemma SharedExport()
    ensures AtReview(Run(ONE_SECTION, START, SHARED_EXPORT), Exported, true)
  {
    Extracts();
    var steps := TO_EXTRACTION;
    Requests(EXTRACTING);
    RunAppend(ONE_SECTION, START, steps, TO_REQUEST);
    steps := steps + TO_REQUEST;
    FirstStarts(Run(ONE_SECTION, START, steps));
    RunAppend(ONE_SECTION, START, steps, TO_FIRST);
    steps := steps + TO_FIRST;
    SecondStarts(Run(ONE_SECTION, START, steps));
    RunAppend(ONE_SECTION, START, steps, TO_BOTH);
    steps := steps + TO_BOTH;
    SecondFinishes(Run(ONE_SECTION, START, steps));
    RunAppend(ONE_SECTION, START, steps, TO_REVIEW);
    steps := steps + TO_REVIEW;
    IsExported(Run(ONE_SECTION, START, steps));
    RunAppend(ONE_SECTION, START, steps, TO_EXPORT);
  }

  const BROKEN := Failure(OtherError(""), [], "", [])

  lemma FailureRequeues(st: State)
    requires AtReview(st, Exported, true)
    ensures Next(ONE_SECTION, st, Work(1, AFail(BROKEN))).task.status == Queued
  {
  }

  /** Why the dedupe by job id matters: after the export, the failure of the first worker takes it back, for
    * only CANCELLED is spared when a failure is recorded. */
  lemma TwoWorkersUndoAnExport()
    ensures Run(ONE_SECTION, START, SHARED_EXPORT).task.status == Exported
    ensures Run(ONE_SECTION, START, SHARED_EXPORT + [Work(1, AFail(BROKEN))]).task.status == Queued
    ensures !OrderlyRun(ONE_SECTION, START, SHARED_EXPORT)
  {
    SharedExport();
    var st := Run(ONE_SECTION, START, SHARED_EXPORT);
    FailureRequeues(st);
    RunAppend(ONE_SECTION, START, SHARED_EXPORT, [Work(1, AFail(BROKEN))]);
    RunOne(ONE_SECTION, st, Work(1, AFail(BROKEN)));
    assert 1 in st.workers && 2 in st.workers;
    if OrderlyRun(ONE_SECTION, START, SHARED_EXPORT) {
      AtMostOneWorker(ONE_SECTION, [], SHARED_EXPORT);
      assert false;
    }
  }
}
