/** The dispatcher never skips a task that waits for a worker. */
module TaskDispatch {
  import opened Prelude
  import opened TaskModel

  predicate InGeneration(s: Status) {
    match s
    case Queued | Generating | ReviewRequired | PendingApproval | Approved | Exported => true
    case _ => false
  }

  /** Status, operation and confirmed facts agree, whatever workers are still about. */
  ghost predicate Consistent(cfg: Config, st: State) {
    && TaskConsistent(cfg, st.task)
    && (forall w <- st.workers :: st.workers[w].kind == Generate ==> st.task.operation == Generate)
  }

  ghost predicate TaskConsistent(cfg: Config, t: Task) {
    && (t.status == Draft || t.status == Extracting ==> t.operation == Extract)
    && (InGeneration(t.status) ==> t.operation == Generate)
    && (t.operation == Generate || t.status == Ready ==> Complete(cfg, t.facts))
  }

  lemma FreshIsConsistent(cfg: Config, initialFacts: seq<Fact>)
    ensures Consistent(cfg, Fresh(cfg, initialFacts))
  {
  }

  lemma RelocateKeepsComplete(cfg: Config, facts: seq<Fact>, locators: seq<int>)
    requires Complete(cfg, facts)
    ensures Complete(cfg, Relocate(facts, locators))
  {
    var moved := Relocate(facts, locators);
    forall k | 0 <= k < |cfg.requiredFields| ensures HasField(moved, cfg.requiredFields[k]) {
      var i :| 0 <= i < |facts| && facts[i].field == cfg.requiredFields[k];
      assert moved[i].field == cfg.requiredFields[k];
    }
  }

  /** The one way out: a validation failure recorded while the operation is still EXTRACT, for a worker that
    * will be retried or whose revision is rolled back. */
  predicate Strands(st: State, step: Step) {
    && step.Work? && step.action.AFail?
    && step.w in st.workers && AtWork(st.workers[step.w].phase)
    && st.task.status != Cancelled
    && st.task.operation == Extract
    && step.action.failure.code == ValidationFailed
    && (RevisionRecovery(step.action.failure) || st.retries > 0)
  }

  lemma RecordedFailureIsConsistent(cfg: Config, st: State, f: Failure)
    requires TaskConsistent(cfg, st.task)
    ensures TaskConsistent(cfg, RecordFailure(cfg, st, f, st.retries)) <==>
            !(st.task.status != Cancelled && st.task.operation == Extract && f.code == ValidationFailed
              && (RevisionRecovery(f) || st.retries > 0))
  {
  }

  lemma FailureKeepsConsistent(cfg: Config, st: State, w: WorkerId, f: Failure)
    requires Consistent(cfg, st)
    ensures Consistent(cfg, WorkerFail(cfg, st, w, f)) <==> !Strands(st, Work(w, AFail(f)))
  {
    RecordedFailureIsConsistent(cfg, st, f);
  }

  lemma ConfirmKeepsConsistent(cfg: Config, st: State, items: seq<Submission>, evidence: Evidence)
    requires Consistent(cfg, st)
    ensures Consistent(cfg, Confirm(cfg, st, items, evidence).0)
  {
    if evidence.Located? && Complete(cfg, SubmittedFacts(items)) {
      RelocateKeepsComplete(cfg, SubmittedFacts(items), evidence.locators);
    }
  }

  lemma RetryKeepsConsistent(cfg: Config, st: State, evidence: Evidence)
    requires Consistent(cfg, st)
    ensures Consistent(cfg, Retry(cfg, st, evidence).0)
  {
    if evidence.Located? && st.task.operation == Generate {
      RelocateKeepsComplete(cfg, st.task.facts, evidence.locators);
    }
  }

  lemma FactRequestKeepsConsistent(cfg: Config, st: State, request: Request)
    requires Consistent(cfg, st) && OnFacts(request) && !request.RConfirm? && !request.RRetry?
    ensures Consistent(cfg, Serve(cfg, st, request).0)
  {
  }

  lemma SectionRequestKeepsConsistent(cfg: Config, st: State, request: Request)
    requires Consistent(cfg, st) && !OnFacts(request)
    ensures Consistent(cfg, Serve(cfg, st, request).0)
  {
  }

  lemma RequestKeepsConsistent(cfg: Config, st: State, request: Request)
    requires Consistent(cfg, st)
    ensures Consistent(cfg, Serve(cfg, st, request).0)
  {
    match request
    case RConfirm(items, evidence) => ConfirmKeepsConsistent(cfg, st, items, evidence);
    case RRetry(evidence) => RetryKeepsConsistent(cfg, st, evidence);
    case _ =>
      if OnFacts(request) {
        FactRequestKeepsConsistent(cfg, st, request);
      } else {
        SectionRequestKeepsConsistent(cfg, st, request);
      }
  }

  lemma ActionKeepsConsistent(cfg: Config, st: State, w: WorkerId, action: Action)
    requires Consistent(cfg, st)
    ensures Consistent(cfg, Act(cfg, st, w, action)) <==> !Strands(st, Work(w, action))
  {
    match action
    case AFail(f) => FailureKeepsConsistent(cfg, st, w, f);
    case _ =>
  }

  lemma QueueKeepsConsistent(cfg: Config, st: State, step: Step)
    requires Consistent(cfg, st) && !step.User? && !step.Work?
    ensures Consistent(cfg, Around(st, step))
  {
    AroundMoves(st, step);
  }

  /** Every step of every request, worker and sweep keeps the agreement, except exactly that one. */
  lemma StepKeepsConsistent(cfg: Config, st: State, step: Step)
    requires Consistent(cfg, st)
    ensures Consistent(cfg, Next(cfg, st, step)) <==> !Strands(st, step)
  {
    match step
    case User(request) => RequestKeepsConsistent(cfg, st, request);
    case Work(w, action) => ActionKeepsConsistent(cfg, st, w, action);
    case _ => QueueKeepsConsistent(cfg, st, step);
  }

  ghost predicate NeverStrands(cfg: Config, st: State, steps: seq<Step>)
    decreases |steps|
  {
    steps == [] || (!Strands(st, steps[0]) && NeverStrands(cfg, Next(cfg, st, steps[0]), steps[1..]))
  }

  lemma {:induction false} RunKeepsConsistent(cfg: Config, st: State, steps: seq<Step>)
    requires Consistent(cfg, st) && NeverStrands(cfg, st, steps)
    ensures Consistent(cfg, Run(cfg, st, steps))
    decreases |steps|
  {
    if steps != [] {
      StepKeepsConsistent(cfg, st, steps[0]);
      RunKeepsConsistent(cfg, Next(cfg, st, steps[0]), steps[1..]);
    }
  }

  /** Only generation validates sections: every VALIDATION_FAILED is reported by a worker of that kind. */
  predicate ValidatesInGeneration(st: State, step: Step) {
    step.Work? && step.action.AFail? && step.action.failure.code == ValidationFailed && step.w in st.workers ==>
      st.workers[step.w].kind == Generate
  }

  ghost predicate GenerationValidates(cfg: Config, st: State, steps: seq<Step>)
    decreases |steps|
  {
    steps == [] || (ValidatesInGeneration(st, steps[0]) && GenerationValidates(cfg, Next(cfg, st, steps[0]), steps[1..]))
  }

  /** Then the way out is never taken: such a worker only exists while the operation is GENERATE. */
  lemma {:induction false} GenerationNeverStrands(cfg: Config, st: State, steps: seq<Step>)
    requires Consistent(cfg, st) && GenerationValidates(cfg, st, steps)
    ensures NeverStrands(cfg, st, steps)
    decreases |steps|
  {
    if steps != [] {
      StepKeepsConsistent(cfg, st, steps[0]);
      GenerationNeverStrands(cfg, Next(cfg, st, steps[0]), steps[1..]);
    }
  }

  /** In every reachable state the dispatcher runs a body exactly for EXTRACTING and QUEUED, the
    * right one for each, and a task in generation has every required fact. */
  lemma DispatcherNeverSkips(cfg: Config, initialFacts: seq<Fact>, steps: seq<Step>)
    requires GenerationValidates(cfg, Fresh(cfg, initialFacts), steps)
    ensures var t := Run(cfg, Fresh(cfg, initialFacts), steps).task;
            && (Dispatch(t) == Some(Extract) <==> t.status == Extracting)
            && (Dispatch(t) == Some(Generate) <==> t.status == Queued)
            && (InGeneration(t.status) ==> t.operation == Generate && Complete(cfg, t.facts))
  {
    FreshIsConsistent(cfg, initialFacts);
    GenerationNeverStrands(cfg, Fresh(cfg, initialFacts), steps);
    RunKeepsConsistent(cfg, Fresh(cfg, initialFacts), steps);
  }

  // ---------------------------------------------------------------- the way out leads nowhere

  /** Queued for an extraction: no dispatcher runs that, and no worker is at work. */
  ghost predicate Stranded(st: State) {
    && st.task.status == Queued && st.task.operation == Extract
    && forall w <- st.workers :: st.workers[w].kind == Extract && !AtWork(st.workers[w].phase)
  }

  predicate Rescues(step: Step) {
    step == User(RStop) || step == Callback(false)
  }

  lemma StrandedRequest(cfg: Config, st: State, request: Request)
    requires Stranded(st) && request != RStop
    ensures var after := Serve(cfg, st, request).0;
            after.task == st.task && after.workers == st.workers && after.sections == st.sections
  {
  }

  lemma StrandedAction(cfg: Config, st: State, w: WorkerId, action: Action)
    requires Stranded(st)
    ensures var after := Act(cfg, st, w, action);
            Stranded(after) && after.sections == st.sections
            && after.task == st.task.(progress := after.task.progress)
  {
  }

  lemma StrandedAround(st: State, step: Step)
    requires Stranded(st) && !step.User? && !step.Work? && !Rescues(step)
    ensures var after := Around(st, step);
            Stranded(after) && after.sections == st.sections
            && after.task == st.task.(progress := after.task.progress)
  {
    AroundMoves(st, step);
  }

  lemma StrandedStep(cfg: Config, st: State, step: Step)
    requires Stranded(st) && !Rescues(step)
    ensures var after := Next(cfg, st, step);
            Stranded(after) && after.sections == st.sections
            && after.task == st.task.(progress := after.task.progress)
  {
    match step
    case User(request) => StrandedRequest(cfg, st, request);
    case Work(w, action) => StrandedAction(cfg, st, w, action);
    case _ => StrandedAround(st, step);
  }

  /** Over any run without a stop and without an unreachable queue, a stranded task stays QUEUED: the
    * dispatcher never runs a body for it, no worker is ever at work on it, and nothing but its progress
    * changes, whatever jobs, sweeps and requests there are. */
  lemma {:induction false} StrandedTaskIsSkippedForever(cfg: Config, st: State, steps: seq<Step>)
    requires Stranded(st) && forall i :: 0 <= i < |steps| ==> !Rescues(steps[i])
    ensures var after := Run(cfg, st, steps);
            && Stranded(after) && Dispatch(after.task) == None && after.sections == st.sections
            && after.task == st.task.(progress := after.task.progress)
    decreases |steps|
  {
    if steps != [] {
      StrandedStep(cfg, st, steps[0]);
      StrandedTaskIsSkippedForever(cfg, Next(cfg, st, steps[0]), steps[1..]);
    }
  }
}
