/** CANCELLED and EXPORTED are final, and what an exported task is made of. */
module TaskFinality {
  import opened Prelude
  import opened Text
  import opened TaskModel

  // ---------------------------------------------------------------- stopping

  /** Everything a stopped task must keep. */
  predicate SameWork(a: State, b: State) {
    && b.task == a.task.(deleted := b.task.deleted)
    && b.sections == a.sections
  }

  ghost predicate OnlyCancelEvents(a: seq<Event>, b: seq<Event>) {
    a <= b && forall i :: |a| <= i < |b| ==> b[i].tool == CancelTool
  }

  predicate Stopped(st: State) {
    st.task.status == Cancelled && st.callbacks == 0
  }

  lemma StoppedActionChangesNothing(cfg: Config, st: State, w: WorkerId, action: Action)
    requires Stopped(st)
    ensures var after := Act(cfg, st, w, action);
            Stopped(after) && after.task == st.task && after.sections == st.sections && after.events == st.events
  {
  }

  lemma StoppedFactRequest(cfg: Config, st: State, request: Request)
    requires Stopped(st) && OnFacts(request)
    ensures var after := Serve(cfg, st, request).0;
            Stopped(after) && SameWork(st, after) && after.events == st.events
  {
  }

  lemma StoppedSectionRequest(cfg: Config, st: State, request: Request)
    requires Stopped(st) && !OnFacts(request)
    ensures Serve(cfg, st, request).0 == st
  {
  }

  lemma StoppedRequestChangesNothing(cfg: Config, st: State, request: Request)
    requires Stopped(st)
    ensures var after := Serve(cfg, st, request).0;
            Stopped(after) && SameWork(st, after) && after.events == st.events
  {
    if OnFacts(request) {
      StoppedFactRequest(cfg, st, request);
    } else {
      StoppedSectionRequest(cfg, st, request);
    }
  }

  lemma FinishStopLogs(st: State)
    requires Stopped(st)
    ensures Stopped(FinishStop(st)) && OnlyCancelEvents(st.events, FinishStop(st).events)
  {
  }

  lemma StoppedQueueStep(cfg: Config, st: State, step: Step)
    requires Stopped(st) && !step.User? && !step.Work?
    ensures var after := Around(st, step);
            Stopped(after) && SameWork(st, after) && OnlyCancelEvents(st.events, after.events)
  {
    AroundMoves(st, step);
    if step == StopFinished {
      FinishStopLogs(st);
    }
  }

  lemma StoppedStep(cfg: Config, st: State, step: Step)
    requires Stopped(st)
    ensures var after := Next(cfg, st, step);
            Stopped(after) && SameWork(st, after) && OnlyCancelEvents(st.events, after.events)
  {
    match step
    case User(request) => StoppedRequestChangesNothing(cfg, st, request);
    case Work(w, action) => StoppedActionChangesNothing(cfg, st, w, action);
    case _ => StoppedQueueStep(cfg, st, step);
  }

  /** Stop is a linearization point: with no queue callback outstanding, nothing that any worker,
    * user or sweep does afterwards changes the task, its facts, its sections or its draft pointer,
    * and the only event that can still be appended is the one of the stop itself. */
  lemma {:induction false} StopIsFinal(cfg: Config, st: State, steps: seq<Step>)
    requires Stopped(st)
    ensures var after := Run(cfg, st, steps);
            Stopped(after) && SameWork(st, after) && OnlyCancelEvents(st.events, after.events)
    decreases |steps|
  {
    if steps != [] {
      StoppedStep(cfg, st, steps[0]);
      StopIsFinal(cfg, Next(cfg, st, steps[0]), steps[1..]);
    }
  }

  /** The condition is exact: a callback still outstanding can bring a stopped task back. */
  lemma StopIsFinalExactly(cfg: Config, st: State)
    requires st.task.status == Cancelled
    ensures (forall steps :: Run(cfg, st, steps).task.status == Cancelled) <==> st.callbacks == 0
  {
    if st.callbacks == 0 {
      forall steps ensures Run(cfg, st, steps).task.status == Cancelled {
        StopIsFinal(cfg, st, steps);
      }
    } else {
      RunOne(cfg, st, Callback(false));
      assert Run(cfg, st, [Callback(false)]).task.status == Failed;
    }
  }

  // ---------------------------------------------------------------- exporting

  predicate Clean(sections: map<Code, Section>, order: seq<Code>) {
    sections.Keys == CodesOf(order) && AllLocked(sections) && NoErrors(sections)
  }

  /** What review guarantees at each later status, for any number of workers. */
  ghost predicate Reviewed(cfg: Config, st: State) {
    var t := st.task;
    && (t.status == Exported ==> Clean(st.sections, cfg.effectiveOrder) && t.output.Some?)
    && (t.status == PendingApproval ==>
          st.sections.Keys == CodesOf(cfg.sectionOrder) && AllLocked(st.sections))
    && (t.status == Approved ==> Clean(st.sections, cfg.sectionOrder))
  }

  lemma RetryKeepsReviewed(cfg: Config, st: State, evidence: Evidence)
    requires Reviewed(cfg, st)
    ensures Reviewed(cfg, Retry(cfg, st, evidence).0)
  {
  }

  lemma ConfirmKeepsReviewed(cfg: Config, st: State, items: seq<Submission>, evidence: Evidence)
    requires Reviewed(cfg, st)
    ensures Reviewed(cfg, Confirm(cfg, st, items, evidence).0)
  {
  }

  lemma FactRequestKeepsReviewed(cfg: Config, st: State, request: Request)
    requires Reviewed(cfg, st) && OnFacts(request)
    ensures Reviewed(cfg, Serve(cfg, st, request).0)
  {
    match request
    case RRetry(evidence) => RetryKeepsReviewed(cfg, st, evidence);
    case RConfirm(items, evidence) => ConfirmKeepsReviewed(cfg, st, items, evidence);
    case _ =>
  }

  lemma SectionRequestKeepsReviewed(cfg: Config, st: State, request: Request)
    requires Reviewed(cfg, st) && !OnFacts(request)
    ensures Reviewed(cfg, Serve(cfg, st, request).0)
  {
  }

  lemma RequestKeepsReviewed(cfg: Config, st: State, request: Request)
    requires Reviewed(cfg, st)
    ensures Reviewed(cfg, Serve(cfg, st, request).0)
  {
    if OnFacts(request) {
      FactRequestKeepsReviewed(cfg, st, request);
    } else {
      SectionRequestKeepsReviewed(cfg, st, request);
    }
  }

  lemma QueueKeepsReviewed(cfg: Config, st: State, step: Step)
    requires Reviewed(cfg, st) && !step.User? && !step.Work?
    ensures Reviewed(cfg, Around(st, step))
  {
    AroundMoves(st, step);
  }

  lemma FailureLeavesReview(cfg: Config, st: State, f: Failure, retriesLeft: nat)
    ensures var status := RecordFailure(cfg, st, f, retriesLeft).status;
            status != Exported && status != PendingApproval && status != Approved
  {
  }

  lemma FailureKeepsReviewed(cfg: Config, st: State, w: WorkerId, failure: Failure)
    requires Reviewed(cfg, st)
    ensures Reviewed(cfg, WorkerFail(cfg, st, w, failure))
  {
    FailureLeavesReview(cfg, st, failure, st.retries);
  }

  lemma WorkKeepsReviewed(cfg: Config, st: State, w: WorkerId, action: Action)
    requires Reviewed(cfg, st) && !action.AFail?
    ensures Reviewed(cfg, Act(cfg, st, w, action))
  {
  }

  lemma ActionKeepsReviewed(cfg: Config, st: State, w: WorkerId, action: Action)
    requires Reviewed(cfg, st)
    ensures Reviewed(cfg, Act(cfg, st, w, action))
  {
    if action.AFail? {
      FailureKeepsReviewed(cfg, st, w, action.failure);
    } else {
      WorkKeepsReviewed(cfg, st, w, action);
    }
  }

  lemma StepKeepsReviewed(cfg: Config, st: State, step: Step)
    requires Reviewed(cfg, st)
    ensures Reviewed(cfg, Next(cfg, st, step))
  {
    match step
    case User(request) => RequestKeepsReviewed(cfg, st, request);
    case Work(w, action) => ActionKeepsReviewed(cfg, st, w, action);
    case _ => QueueKeepsReviewed(cfg, st, step);
  }

  lemma {:induction false} RunKeepsReviewed(cfg: Config, st: State, steps: seq<Step>)
    requires Reviewed(cfg, st)
    ensures Reviewed(cfg, Run(cfg, st, steps))
    decreases |steps|
  {
    if steps != [] {
      StepKeepsReviewed(cfg, st, steps[0]);
      RunKeepsReviewed(cfg, Next(cfg, st, steps[0]), steps[1..]);
    }
  }

  /** In every reachable EXPORTED state the sections are all locked, none has an error, and they
    * are exactly the sections of the effective order. */
  lemma ExportedIsClean(cfg: Config, facts: seq<Fact>, steps: seq<Step>)
    ensures var st := Run(cfg, Fresh(cfg, facts), steps);
            st.task.status == Exported ==> Clean(st.sections, cfg.effectiveOrder) && st.task.output.Some?
  {
    RunKeepsReviewed(cfg, Fresh(cfg, facts), steps);
  }

  /** Submission checks the stored section order, export the inferred one: a task that went through
    * approval can be exported exactly when both orders name the same sections. */
  lemma ApprovedExportsIffOrdersAgree(cfg: Config, facts: seq<Fact>, steps: seq<Step>, key: string, world: ExportWorld)
    requires var st := Run(cfg, Fresh(cfg, facts), steps);
             st.task.status == Approved && st.projectActive
    requires Strip(key) != "" && world.templateFile && world.trouble == None
    ensures var st := Run(cfg, Fresh(cfg, facts), steps);
            Export(cfg, st, key, world).1 == Done <==> CodesOf(cfg.sectionOrder) == CodesOf(cfg.effectiveOrder)
  {
    RunKeepsReviewed(cfg, Fresh(cfg, facts), steps);
  }

  /** A worker that may still report a failure. */
  predicate CanStillFail(worker: Worker) {
    AtWork(worker.phase)
  }

  predicate Settled(st: State) {
    && st.task.status == Exported
    && st.callbacks == 0
    && forall w <- st.workers :: !CanStillFail(st.workers[w])
  }

  predicate SameExport(a: State, b: State) {
    && b.task == a.task.(deleted := b.task.deleted, progress := b.task.progress)
    && b.sections == a.sections
    && b.exports == a.exports
  }

  lemma SettledRequest(cfg: Config, st: State, request: Request)
    requires Settled(st)
    ensures var after := Serve(cfg, st, request).0; Settled(after) && SameExport(st, after)
  {
  }

  lemma SettledAction(cfg: Config, st: State, w: WorkerId, action: Action)
    requires Settled(st)
    ensures var after := Act(cfg, st, w, action); Settled(after) && SameExport(st, after)
  {
  }

  lemma SettledQueueStep(cfg: Config, st: State, step: Step)
    requires Settled(st) && !step.User? && !step.Work?
    ensures var after := Around(st, step); Settled(after) && SameExport(st, after)
  {
    AroundMoves(st, step);
  }

  lemma SettledStep(cfg: Config, st: State, step: Step)
    requires Settled(st)
    ensures var after := Next(cfg, st, step); Settled(after) && SameExport(st, after)
  {
    match step
    case User(request) => SettledRequest(cfg, st, request);
    case Work(w, action) => SettledAction(cfg, st, w, action);
    case _ => SettledQueueStep(cfg, st, step);
  }

  /** An exported task stays exported with the same document, whatever happens: requests, sweeps,
    * new jobs, and workers that have not claimed or have already reported. */
  lemma {:induction false} ExportIsFinal(cfg: Config, st: State, steps: seq<Step>)
    requires Settled(st)
    ensures var after := Run(cfg, st, steps); Settled(after) && SameExport(st, after)
    decreases |steps|
  {
    if steps != [] {
      SettledStep(cfg, st, steps[0]);
      ExportIsFinal(cfg, Next(cfg, st, steps[0]), steps[1..]);
    }
  }

  /** A worker that can still fail takes an exported task away. */
  lemma FailureUndoesExport(cfg: Config, st: State, w: WorkerId) returns (fail: Step)
    requires st.task.status == Exported && w in st.workers && CanStillFail(st.workers[w])
    ensures Run(cfg, st, [fail]).task.status != Exported
  {
    fail := Work(w, AFail(Failure(OtherError(""), [], "", [])));
    RunOne(cfg, st, fail);
  }

  /** Exactly when an exported task is out of everybody's reach. */
  lemma ExportIsFinalExactly(cfg: Config, st: State)
    requires st.task.status == Exported
    ensures (forall steps :: Run(cfg, st, steps).task.status == Exported) <==> Settled(st)
  {
    if Settled(st) {
      forall steps ensures Run(cfg, st, steps).task.status == Exported {
        ExportIsFinal(cfg, st, steps);
      }
    } else if st.callbacks > 0 {
      RunOne(cfg, st, Callback(false));
      assert Run(cfg, st, [Callback(false)]).task.status == Failed;
    } else {
      var w :| w in st.workers && CanStillFail(st.workers[w]);
      var fail := FailureUndoesExport(cfg, st, w);
      assert Run(cfg, st, [fail]).task.status != Exported;
    }
  }
}
