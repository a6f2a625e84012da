/** The job-id dedupe keeps one worker per task, and with it an export happens once. */
module TaskWorkers {
  import opened TaskModel
  import opened TaskFinality

  /** What the queue promises: a job starts only while it waits and is given up only when its worker is
    * gone, and the on-commit call of queue_generation_task is made before anything else touches the
    * task. */
  predicate Orderly(st: State, step: Step) {
    && (step.Spawned? ==> st.job == Waiting)
    && (step.Abandoned? ==> st.workers == map[])
    && (st.callbacks > 0 ==> step.Callback?)
  }

  ghost predicate OrderlyRun(cfg: Config, st: State, steps: seq<Step>)
    decreases |steps|
  {
    steps == [] || (Orderly(st, steps[0]) && OrderlyRun(cfg, Next(cfg, st, steps[0]), steps[1..]))
  }

  predicate BeforeReview(s: Status) {
    match s
    case Extracting | Queued | Generating | Failed | Cancelled | NeedsConfirmation | Ready => true
    case _ => false
  }

  /** At most one worker; while it works the task is before review; at most one export. */
  ghost predicate Single(st: State) {
    && (forall v, w :: v in st.workers && w in st.workers ==> v == w)
    && (forall w <- st.workers :: st.job == Started)
    && (forall w <- st.workers :: st.workers[w].phase != Reporting ==> BeforeReview(st.task.status))
    && st.callbacks <= 1
    && (st.callbacks > 0 ==> st.task.status == Extracting || st.task.status == Queued)
    && st.exports == (if st.task.status == Exported && st.task.output.Some? then [st.task.output.value] else [])
  }

  predicate StartsWork(r: Request) {
    r.RPrepare? || r.RGenerate? || r.RRetry?
  }

  lemma StartKeepsSingle(cfg: Config, st: State, request: Request)
    requires Single(st) && st.callbacks == 0 && StartsWork(request)
    ensures Single(Serve(cfg, st, request).0)
  {
  }

  lemma FactRequestKeepsSingle(cfg: Config, st: State, request: Request)
    requires Single(st) && st.callbacks == 0 && OnFacts(request) && !StartsWork(request)
    ensures Single(Serve(cfg, st, request).0)
  {
  }

  lemma ExportKeepsSingle(cfg: Config, st: State, key: string, world: ExportWorld)
    requires Single(st) && st.callbacks == 0
    ensures Single(Export(cfg, st, key, world).0)
  {
  }

  lemma SectionRequestKeepsSingle(cfg: Config, st: State, request: Request)
    requires Single(st) && st.callbacks == 0 && !OnFacts(request) && !request.RExport?
    ensures Single(Serve(cfg, st, request).0)
  {
  }

  lemma RequestKeepsSingle(cfg: Config, st: State, request: Request)
    requires Single(st) && st.callbacks == 0
    ensures Single(Serve(cfg, st, request).0)
  {
    if StartsWork(request) {
      StartKeepsSingle(cfg, st, request);
    } else if OnFacts(request) {
      FactRequestKeepsSingle(cfg, st, request);
    } else if request.RExport? {
      ExportKeepsSingle(cfg, st, request.key, request.world);
    } else {
      SectionRequestKeepsSingle(cfg, st, request);
    }
  }

  lemma FailureKeepsSingle(cfg: Config, st: State, w: WorkerId, f: Failure)
    requires Single(st) && st.callbacks == 0
    ensures Single(WorkerFail(cfg, st, w, f))
  {
  }

  lemma EndKeepsSingle(st: State, w: WorkerId, ending: Ending)
    requires Single(st) && st.callbacks == 0
    ensures Single(End(st, w, ending))
  {
  }

  lemma ClaimKeepsSingle(st: State, w: WorkerId)
    requires Single(st) && st.callbacks == 0
    ensures Single(Claim(st, w))
  {
  }

  lemma EndingKeepsSingle(cfg: Config, st: State, w: WorkerId, action: Action)
    requires Single(st) && st.callbacks == 0 && (action.AFail? || action.AEnd? || action.AClaim?)
    ensures Single(Act(cfg, st, w, action))
  {
    match action
    case AFail(f) => FailureKeepsSingle(cfg, st, w, f);
    case AEnd(ending) => EndKeepsSingle(st, w, ending);
    case AClaim => ClaimKeepsSingle(st, w);
  }

  lemma CommitsKeepSingle(st: State, w: WorkerId, proposals: seq<Fact>, conflicts: seq<string>)
    requires Single(st) && st.callbacks == 0
    ensures Single(CommitGeneration(st, w)) && Single(CommitExtraction(st, w, proposals, conflicts))
  {
  }

  lemma DraftKeepsSingle(st: State, w: WorkerId)
    requires Single(st) && st.callbacks == 0
    ensures Single(DraftStep(st, w))
  {
  }

  lemma WorkingKeepsSingle(cfg: Config, st: State, w: WorkerId, action: Action)
    requires Single(st) && st.callbacks == 0 && !action.AFail? && !action.AEnd? && !action.AClaim?
    ensures Single(Act(cfg, st, w, action))
  {
    match action
    case ACommitGeneration => CommitsKeepSingle(st, w, [], []);
    case ACommitExtraction(proposals, conflicts) => CommitsKeepSingle(st, w, proposals, conflicts);
    case ADraft => DraftKeepsSingle(st, w);
    case _ =>
  }

  lemma ActionKeepsSingle(cfg: Config, st: State, w: WorkerId, action: Action)
    requires Single(st) && st.callbacks == 0
    ensures Single(Act(cfg, st, w, action))
  {
    if action.AFail? || action.AEnd? || action.AClaim? {
      EndingKeepsSingle(cfg, st, w, action);
    } else {
      WorkingKeepsSingle(cfg, st, w, action);
    }
  }

  lemma SpawnKeepsSingle(st: State, w: WorkerId)
    requires Single(st) && Orderly(st, Spawned(w))
    ensures Single(Spawn(st, w))
  {
  }

  lemma CallbackKeepsSingle(st: State, reachable: bool)
    requires Single(st)
    ensures Single(RunCallback(st, reachable))
  {
  }

  lemma RecoverKeepsSingle(st: State, stale: bool)
    requires Single(st) && Orderly(st, Recovered(stale))
    ensures Single(Recover(st, stale))
  {
  }

  lemma QueueKeepsSingle(cfg: Config, st: State, step: Step)
    requires Single(st) && Orderly(st, step) && !step.User? && !step.Work?
    ensures Single(Around(st, step))
  {
    match step
    case Spawned(w) => SpawnKeepsSingle(st, w);
    case Callback(reachable) => CallbackKeepsSingle(st, reachable);
    case Recovered(stale) => RecoverKeepsSingle(st, stale);
    case _ =>
  }

  lemma StepKeepsSingle(cfg: Config, st: State, step: Step)
    requires Single(st) && Orderly(st, step)
    ensures Single(Next(cfg, st, step))
  {
    match step
    case User(request) => RequestKeepsSingle(cfg, st, request);
    case Work(w, action) => ActionKeepsSingle(cfg, st, w, action);
    case _ => QueueKeepsSingle(cfg, st, step);
  }

  lemma {:induction false} RunKeepsSingle(cfg: Config, st: State, steps: seq<Step>)
    requires Single(st) && OrderlyRun(cfg, st, steps)
    ensures Single(Run(cfg, st, steps))
    decreases |steps|
  {
    if steps != [] {
      StepKeepsSingle(cfg, st, steps[0]);
      RunKeepsSingle(cfg, Next(cfg, st, steps[0]), steps[1..]);
    }
  }

  /** The dedupe by job id suffices: never two workers in flight for one task. */
  lemma AtMostOneWorker(cfg: Config, facts: seq<Fact>, steps: seq<Step>)
    requires OrderlyRun(cfg, Fresh(cfg, facts), steps)
    ensures var st := Run(cfg, Fresh(cfg, facts), steps);
            forall v, w :: v in st.workers && w in st.workers ==> v == w
  {
    RunKeepsSingle(cfg, Fresh(cfg, facts), steps);
  }

  /** Once exported, always exported with that one document: `steps` is any orderly run, `more` is
    * any run at all. */
  lemma ExportedOnce(cfg: Config, facts: seq<Fact>, steps: seq<Step>, more: seq<Step>)
    requires OrderlyRun(cfg, Fresh(cfg, facts), steps)
    requires Run(cfg, Fresh(cfg, facts), steps).task.status == Exported
    ensures var st := Run(cfg, Fresh(cfg, facts), steps);
            var later := Run(cfg, st, more);
            && later.task.status == Exported
            && st.task.output.Some? && later.task.output == st.task.output
            && later.exports == [st.task.output.value]
            && later.sections == st.sections
  {
    var st := Run(cfg, Fresh(cfg, facts), steps);
    RunKeepsSingle(cfg, Fresh(cfg, facts), steps);
    ExportedIsClean(cfg, facts, steps);
    assert Settled(st);
    ExportIsFinal(cfg, st, more);
  }

  /** All successful exports of a task return the same document: the first at the end of any orderly run,
    * the second after any further run at all. */
  lemma ExportsAgree(cfg: Config, facts: seq<Fact>, steps: seq<Step>, first: string, w1: ExportWorld,
                     more: seq<Step>, second: string, w2: ExportWorld)
    requires OrderlyRun(cfg, Fresh(cfg, facts), steps)
    requires Export(cfg, Run(cfg, Fresh(cfg, facts), steps), first, w1).1 == Done
    requires var exported := Export(cfg, Run(cfg, Fresh(cfg, facts), steps), first, w1).0;
             Export(cfg, Run(cfg, exported, more), second, w2).1 == Done
    ensures var exported := Export(cfg, Run(cfg, Fresh(cfg, facts), steps), first, w1).0;
            && exported.task.output.Some?
            && Export(cfg, Run(cfg, exported, more), second, w2).0.task.output == exported.task.output
  {
    var st := Run(cfg, Fresh(cfg, facts), steps);
    RunKeepsSingle(cfg, Fresh(cfg, facts), steps);
    RunKeepsReviewed(cfg, Fresh(cfg, facts), steps);
    var exported := Export(cfg, st, first, w1).0;
    ExportedSettles(cfg, st, first, w1);
    ExportIsFinal(cfg, exported, more);
  }

  lemma ExportedSettles(cfg: Config, st: State, key: string, world: ExportWorld)
    requires Single(st) && Reviewed(cfg, st) && Export(cfg, st, key, world).1 == Done
    ensures var exported := Export(cfg, st, key, world).0; Settled(exported) && exported.task.output.Some?
  {
  }

  /** On orderly runs a stop is final without further conditions: no callback is outstanding once a task is
    * CANCELLED, so nothing in any later run, orderly or not, changes it. */
  lemma StoppedIsFinalOnOrderlyRuns(cfg: Config, facts: seq<Fact>, steps: seq<Step>, more: seq<Step>)
    requires OrderlyRun(cfg, Fresh(cfg, facts), steps)
    requires Run(cfg, Fresh(cfg, facts), steps).task.status == Cancelled
    ensures var st := Run(cfg, Fresh(cfg, facts), steps);
            var later := Run(cfg, st, more);
            later.task.status == Cancelled && SameWork(st, later) && OnlyCancelEvents(st.events, later.events)
  {
    RunKeepsSingle(cfg, Fresh(cfg, facts), steps);
    StopIsFinal(cfg, Run(cfg, Fresh(cfg, facts), steps), more);
  }
}
