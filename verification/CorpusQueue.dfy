/** Corpus uploads and their jobs: who holds an upload, what an enqueue that fails late undoes, and which
  * uploads nobody will ever process again. */
module CorpusQueue {
  import opened Prelude
  import opened Corpus
  import opened CorpusRuns

  // ---------------------------------------------------------------- runs the queue can produce

  predicate Holds(st: State, id: UploadId) {
    exists w :: w in st.workers && st.workers[w] == id
  }

  /** A job starts only while it waits, and ends only when nobody works for it. */
  predicate Orderly(st: State, step: Step) {
    match step
    case SClaim(_, id) => id in st.queue.jobs && st.queue.jobs[id] == Waiting
    case SEnd(id, _) => !Holds(st, id)
    case _ => true
  }

  ghost predicate OrderlyRun(st: State, steps: seq<Step>)
    decreases |steps|
  {
    steps == [] || (Orderly(st, steps[0]) && OrderlyRun(Next(st, steps[0]), steps[1..]))
  }

  lemma {:induction false} OrderlyMore(st: State, steps: seq<Step>, step: Step)
    requires OrderlyRun(st, steps) && Orderly(Run(st, steps), step)
    ensures OrderlyRun(st, steps + [step])
    decreases |steps|
  {
    if steps == [] {
      assert [] + [step] == [step] && [step][1..] == [];
    } else {
      assert (steps + [step])[1..] == steps[1..] + [step];
      OrderlyMore(Next(st, steps[0]), steps[1..], step);
    }
  }

  // ---------------------------------------------------------------- one holder

  /** A held upload is held once, its job has started, and it has not succeeded. */
  ghost predicate Single(st: State) {
    && (forall w <- st.workers :: st.workers[w] in st.queue.jobs && st.queue.jobs[st.workers[w]] == Started)
    && (forall v, w :: v in st.workers && w in st.workers && v != w ==> st.workers[v] != st.workers[w])
    && (forall w <- st.workers :: st.workers[w] in st.uploads && st.uploads[st.workers[w]].status != Succeeded)
  }

  lemma InsertKeepsSingle(st: State, r: RequestId, file: Option<VersionId>)
    requires Base(st) && Single(st)
    ensures Single(Insert(st, r, file))
  {
    if Inserts(st, SInsert(r, file)) {
      InsertIs(st, r, file);
    } else {
      NoInsertIs(st, r, file);
    }
  }

  lemma CreatingKeepsSingle(st: State, step: Step)
    requires Base(st) && Single(st) && Creates(step)
    ensures Single(Next(st, step))
  {
    match step
    case SCheck(r, hash, requested, newest, folder) => CheckAsks(st, r, hash, requested, newest, folder);
    case SPlan(r, version, planned) => PlanAsks(st, r, version, planned);
    case SInsert(r, file) => InsertKeepsSingle(st, r, file);
    case SDrop(_) =>
  }

  lemma TakenIsSingle(st: State, w: WorkerId, id: UploadId)
    requires Single(st) && CanClaim(st, w, id) && forall v <- st.workers :: st.workers[v] != id
    ensures Single(PutUpload(PutJob(st, id, Started), id, st.uploads[id].(status := Processing))
                   .(workers := st.workers[w := id]))
  {
  }

  lemma ClaimKeepsSingle(st: State, w: WorkerId, id: UploadId)
    requires Single(st) && Orderly(st, SClaim(w, id))
    ensures Single(Claim(st, w, id))
  {
    assert forall v <- st.workers :: st.workers[v] != id;
    if CanClaim(st, w, id) {
      TakenIsSingle(st, w, id);
      ClaimTakes(st, w, id);
    } else {
      ClaimSkips(st, w, id);
    }
  }

  lemma FailKeepsSingle(st: State, w: WorkerId)
    requires Base(st) && Single(st)
    ensures Single(Fail(st, w)) && Single(Crash(st, w))
  {
  }

  lemma FinishKeepsSingle(st: State, w: WorkerId, chunker: SectionCode -> SectionResult)
    requires Base(st) && Single(st)
    ensures Single(Finish(st, w, chunker))
  {
    if w in st.workers {
      FinishIs(st, w, chunker);
      FailKeepsSingle(st, w);
    }
  }

  lemma CallKeepsSingle(st: State, id: UploadId, reachable: bool)
    requires Single(st)
    ensures Single(RunCall(st, id, reachable))
  {
  }

  lemma OthersKeepSingle(st: State, step: Step)
    requires Single(st) && Orderly(st, step) && (step.SRetry? || step.SEnd? || step.SStore?)
    ensures Single(Process(st, step))
  {
  }

  lemma StepKeepsSingle(st: State, step: Step)
    requires Base(st) && Single(st) && Orderly(st, step)
    ensures Single(Next(st, step))
  {
    if Creates(step) {
      CreatingKeepsSingle(st, step);
      return;
    }
    match step
    case SClaim(w, id) => ClaimKeepsSingle(st, w, id);
    case SFinish(w, chunker) => FinishKeepsSingle(st, w, chunker);
    case SFail(w) => FailKeepsSingle(st, w);
    case SCrash(w) => FailKeepsSingle(st, w);
    case SCall(id, reachable) => CallKeepsSingle(st, id, reachable);
    case _ => OthersKeepSingle(st, step);
  }

  lemma {:induction false} RunKeepsSingle(st: State, steps: seq<Step>)
    requires Base(st) && Single(st) && OrderlyRun(st, steps)
    ensures Base(Run(st, steps)) && Single(Run(st, steps))
    decreases |steps|
  {
    if steps != [] {
      StepKeepsBase(st, steps[0]);
      StepKeepsSingle(st, steps[0]);
      RunKeepsSingle(Next(st, steps[0]), steps[1..]);
    }
  }

  /** Over every orderly run no two workers hold the same upload. */
  lemma OneHolder(steps: seq<Step>)
    requires OrderlyRun(EMPTY, steps)
    ensures var st := Run(EMPTY, steps);
            forall v, w :: v in st.workers && w in st.workers && v != w ==> st.workers[v] != st.workers[w]
  {
    RunKeepsSingle(EMPTY, steps);
  }

  // ---------------------------------------------------------------- what a holder can rely on

  ghost predicate HeldIsProcessing(st: State) {
    forall w <- st.workers :: st.workers[w] in st.uploads && st.uploads[st.workers[w]].status == Processing
  }

  /** An enqueue fails after a worker has already taken the upload. */
  predicate Late(st: State, step: Step) {
    step.SCall? && !step.reachable && step.id in st.queue.calls && Holds(st, step.id)
  }

  ghost predicate NeverLate(st: State, steps: seq<Step>)
    decreases |steps|
  {
    steps == [] || (!Late(st, steps[0]) && NeverLate(Next(st, steps[0]), steps[1..]))
  }

  /** At every point of the run. */
  ghost predicate AlwaysProcessing(st: State, steps: seq<Step>)
    decreases |steps|
  {
    HeldIsProcessing(st) && (steps == [] || AlwaysProcessing(Next(st, steps[0]), steps[1..]))
  }

  lemma CallKeepsHeld(st: State, id: UploadId, reachable: bool)
    requires Base(st) && HeldIsProcessing(st)
    ensures HeldIsProcessing(RunCall(st, id, reachable)) <==> !Late(st, SCall(id, reachable))
  {
    if Late(st, SCall(id, reachable)) {
      var w :| w in st.workers && st.workers[w] == id;
      assert RunCall(st, id, reachable).workers[w] == id;
    }
  }

  lemma ClaimKeepsHeld(st: State, w: WorkerId, id: UploadId)
    requires HeldIsProcessing(st)
    ensures HeldIsProcessing(Claim(st, w, id))
  {
    ClaimIs(st, w, id);
  }

  lemma FailKeepsHeld(st: State, w: WorkerId)
    requires Single(st) && HeldIsProcessing(st)
    ensures HeldIsProcessing(Fail(st, w)) && HeldIsProcessing(Crash(st, w))
  {
  }

  lemma FinishKeepsHeld(st: State, w: WorkerId, chunker: SectionCode -> SectionResult)
    requires Base(st) && Single(st) && HeldIsProcessing(st)
    ensures HeldIsProcessing(Finish(st, w, chunker))
  {
    if w in st.workers {
      FinishIs(st, w, chunker);
      FailKeepsHeld(st, w);
    } else {
      NoFinishIs(st, w, chunker);
    }
  }

  lemma CreatingKeepsHeld(st: State, step: Step)
    requires Base(st) && HeldIsProcessing(st) && Creates(step)
    ensures HeldIsProcessing(Next(st, step))
  {
    WorkersAreKept(st, step);
    if Inserts(st, step) {
      InsertIs(st, step.r, step.file);
    } else if step.SInsert? {
      NoInsertIs(st, step.r, step.file);
    } else {
      StepChanges(st, step);
    }
  }

  lemma OthersKeepHeld(st: State, step: Step)
    requires HeldIsProcessing(st) && (step.SRetry? || step.SCrash? || step.SEnd? || step.SStore?)
    ensures HeldIsProcessing(Process(st, step))
  {
  }

  lemma StepKeepsHeld(st: State, step: Step)
    requires Base(st) && Single(st) && HeldIsProcessing(st)
    ensures HeldIsProcessing(Next(st, step)) <==> !Late(st, step)
  {
    if Creates(step) {
      CreatingKeepsHeld(st, step);
      return;
    }
    match step
    case SCall(id, reachable) => CallKeepsHeld(st, id, reachable);
    case SClaim(w, id) => ClaimKeepsHeld(st, w, id);
    case SFinish(w, chunker) => FinishKeepsHeld(st, w, chunker);
    case SFail(w) => FailKeepsHeld(st, w);
    case _ => OthersKeepHeld(st, step);
  }

  lemma {:induction false} RunIsProcessing(st: State, steps: seq<Step>)
    requires Base(st) && Single(st) && HeldIsProcessing(st) && OrderlyRun(st, steps)
    ensures AlwaysProcessing(st, steps) <==> NeverLate(st, steps)
    decreases |steps|
  {
    if steps != [] {
      StepKeepsHeld(st, steps[0]);
      if !Late(st, steps[0]) {
        StepKeepsBase(st, steps[0]);
        StepKeepsSingle(st, steps[0]);
        RunIsProcessing(Next(st, steps[0]), steps[1..]);
      }
    }
  }

  /** Over every orderly run: a held upload is in PROCESSING all the time if and only if no enqueue fails
    * while a worker holds its upload. */
  lemma HeldIsProcessingIff(steps: seq<Step>)
    requires OrderlyRun(EMPTY, steps)
    ensures AlwaysProcessing(EMPTY, steps) <==> NeverLate(EMPTY, steps)
  {
    RunIsProcessing(EMPTY, steps);
  }

  // ---------------------------------------------------------------- uploads nobody can reach

  /** No worker holds the upload and no enqueue is outstanding for it. */
  predicate Unattended(st: State, id: UploadId) {
    id in st.uploads && id < st.nextUpload && id !in st.queue.calls && !Holds(st, id)
  }

  /** The step may give an unattended upload back to somebody: a claim, or a retry. */
  predicate TakesUp(st: State, step: Step, id: UploadId)
    requires id in st.uploads
  {
    match step
    case SClaim(_, k) => k == id && (st.uploads[id].status == Queued || st.uploads[id].status == Failed)
    case SRetry(k) => k == id && st.uploads[id].status == Failed
    case _ => false
  }

  lemma InsertLeavesAlone(st: State, r: RequestId, file: Option<VersionId>, id: UploadId)
    requires Unattended(st, id)
    ensures var after := Insert(st, r, file); Unattended(after, id) && after.uploads[id] == st.uploads[id]
  {
    if Inserts(st, SInsert(r, file)) {
      InsertIs(st, r, file);
    } else {
      NoInsertIs(st, r, file);
    }
  }

  lemma CreatingLeavesAlone(st: State, step: Step, id: UploadId)
    requires Unattended(st, id) && Creates(step)
    ensures var after := Next(st, step); Unattended(after, id) && after.uploads[id] == st.uploads[id]
  {
    match step
    case SCheck(r, hash, requested, newest, folder) => CheckAsks(st, r, hash, requested, newest, folder);
    case SPlan(r, version, planned) => PlanAsks(st, r, version, planned);
    case SInsert(r, file) => InsertLeavesAlone(st, r, file, id);
    case SDrop(_) =>
  }

  lemma ClaimLeavesAlone(st: State, w: WorkerId, k: UploadId, id: UploadId)
    requires Unattended(st, id) && !TakesUp(st, SClaim(w, k), id)
    ensures var after := Claim(st, w, k); Unattended(after, id) && after.uploads[id] == st.uploads[id]
  {
    if CanClaim(st, w, k) {
      ClaimTakes(st, w, k);
    } else {
      ClaimSkips(st, w, k);
    }
  }

  lemma FinishLeavesAlone(st: State, w: WorkerId, chunker: SectionCode -> SectionResult, id: UploadId)
    requires Unattended(st, id)
    ensures var after := Finish(st, w, chunker); Unattended(after, id) && after.uploads[id] == st.uploads[id]
    ensures var after := Fail(st, w); Unattended(after, id) && after.uploads[id] == st.uploads[id]
    ensures var after := Crash(st, w); Unattended(after, id) && after.uploads[id] == st.uploads[id]
  {
    if w in st.workers && st.workers[w] in st.uploads {
      FinishIs(st, w, chunker);
      assert st.workers[w] != id;
    } else {
      NoFinishIs(st, w, chunker);
    }
  }

  lemma CallLeavesAlone(st: State, k: UploadId, reachable: bool, id: UploadId)
    requires Unattended(st, id)
    ensures var after := RunCall(st, k, reachable); Unattended(after, id) && after.uploads[id] == st.uploads[id]
  {
  }

  lemma OthersLeaveAlone(st: State, step: Step, id: UploadId)
    requires Unattended(st, id) && !TakesUp(st, step, id) && (step.SRetry? || step.SEnd? || step.SStore?)
    ensures var after := Process(st, step); Unattended(after, id) && after.uploads[id] == st.uploads[id]
  {
  }

  lemma StepLeavesAlone(st: State, step: Step, id: UploadId)
    requires Unattended(st, id) && !TakesUp(st, step, id)
    ensures var after := Next(st, step); Unattended(after, id) && after.uploads[id] == st.uploads[id]
  {
    if Creates(step) {
      CreatingLeavesAlone(st, step, id);
      return;
    }
    match step
    case SClaim(w, k) => ClaimLeavesAlone(st, w, k, id);
    case SFinish(w, chunker) => FinishLeavesAlone(st, w, chunker, id);
    case SFail(w) => FinishLeavesAlone(st, w, _ => Nothing, id);
    case SCrash(w) => FinishLeavesAlone(st, w, _ => Nothing, id);
    case SCall(k, reachable) => CallLeavesAlone(st, k, reachable, id);
    case _ => OthersLeaveAlone(st, step, id);
  }

  /** In PROCESSING or SUCCEEDED nothing takes it up. */
  lemma {:induction false} RunLeavesAlone(st: State, steps: seq<Step>, id: UploadId)
    requires Unattended(st, id) && (st.uploads[id].status == Processing || st.uploads[id].status == Succeeded)
    ensures var after := Run(st, steps); Unattended(after, id) && after.uploads[id] == st.uploads[id]
    decreases |steps|
  {
    if steps != [] {
      StepLeavesAlone(st, steps[0], id);
      RunLeavesAlone(Next(st, steps[0]), steps[1..], id);
    }
  }

  lemma CallFails(st: State, id: UploadId)
    requires id in st.uploads && id in st.queue.calls
    ensures var after := Run(st, [SCall(id, false)]); id in after.uploads && after.uploads[id].status == Failed
    ensures OrderlyRun(st, [SCall(id, false)]) && NeverOvertaken(st, [SCall(id, false)])
  {
    RunOne(st, SCall(id, false));
  }

  // ---------------------------------------------------------------- finality

  ghost predicate Kept(st: State, after: State, id: UploadId)
    requires id in st.uploads
  {
    && id in after.uploads && after.uploads[id] == st.uploads[id]
    && RowsOf(after, after.uploads[id]) == RowsOf(st, st.uploads[id])
  }

  lemma {:induction false} RunKeepsProduced(st: State, steps: seq<Step>, id: UploadId)
    requires Base(st) && Unattended(st, id) && st.uploads[id].status == Succeeded && id in st.produced
    ensures id in Run(st, steps).produced && Run(st, steps).produced[id] == st.produced[id]
    decreases |steps|
  {
    if steps != [] {
      StepKeepsProduced(st, steps[0], id);
      StepLeavesAlone(st, steps[0], id);
      StepKeepsBase(st, steps[0]);
      RunKeepsProduced(Next(st, steps[0]), steps[1..], id);
    }
  }

  lemma StepKeepsProduced(st: State, step: Step, id: UploadId)
    requires Base(st) && !Holds(st, id) && id in st.produced
    ensures id in Next(st, step).produced && Next(st, step).produced[id] == st.produced[id]
  {
    if step.SFinish? {
      if step.w in st.workers {
        FinishIs(st, step.w, step.chunker);
      }
    } else {
      OthersKeepRows(st, step);
    }
  }

  /** At the end of any orderly run in which no request was overtaken: a succeeded upload and its rows stay
    * over every continuation without an overtaken request if and only if no enqueue is outstanding for it. */
  lemma SuccessIsFinalIff(steps: seq<Step>, id: UploadId)
    requires OrderlyRun(EMPTY, steps) && NeverOvertaken(EMPTY, steps)
    requires var st := Run(EMPTY, steps); id in st.uploads && st.uploads[id].status == Succeeded
    ensures var st := Run(EMPTY, steps);
            (forall more :: NeverOvertaken(st, more) ==> Kept(st, Run(st, more), id)) <==> id !in st.queue.calls
  {
    var st := Run(EMPTY, steps);
    RunKeepsSingle(EMPTY, steps);
    RunKeepsFaithful(EMPTY, steps);
    if id in st.queue.calls {
      CallFails(st, id);
      assert !Kept(st, Run(st, [SCall(id, false)]), id);
    } else {
      forall more | NeverOvertaken(st, more) ensures Kept(st, Run(st, more), id) {
        RunLeavesAlone(st, more, id);
        RunKeepsProduced(st, more, id);
        RunKeepsFaithful(st, more);
      }
    }
  }

  // ---------------------------------------------------------------- a dead worker

  /** When the holder of an upload dies without a word, the upload stays in PROCESSING over every
    * continuation if and only if no enqueue is outstanding for it: a retry wants FAILED, a claim wants QUEUED
    * or FAILED, and no sweep looks at uploads. */
  lemma CrashedUploadIsStuckIff(steps: seq<Step>, w: WorkerId)
    requires OrderlyRun(EMPTY, steps) && w in Run(EMPTY, steps).workers
    requires var st := Run(EMPTY, steps); st.workers[w] in st.uploads && st.uploads[st.workers[w]].status == Processing
    ensures var st := Run(EMPTY, steps);
            var id := st.workers[w];
            var after := Crash(st, w);
            (forall more :: id in Run(after, more).uploads && Run(after, more).uploads[id].status == Processing)
            <==> id !in st.queue.calls
  {
    var st := Run(EMPTY, steps);
    var id := st.workers[w];
    var after := Crash(st, w);
    RunKeepsSingle(EMPTY, steps);
    if id in st.queue.calls {
      CallFails(after, id);
    } else {
      forall more ensures id in Run(after, more).uploads && Run(after, more).uploads[id].status == Processing {
        RunLeavesAlone(after, more, id);
      }
    }
  }

  // ---------------------------------------------------------------- a retry that is lost

  /** A queued upload somebody will still look at: its job waits or has not ended, or is about to be enqueued. */
  predicate Expected(st: State, id: UploadId) {
    id in st.queue.calls || IsLive(st.queue, id)
  }

  lemma ForgottenStep(st: State, step: Step, id: UploadId)
    requires Unattended(st, id) && st.uploads[id].status == Queued && !IsLive(st.queue, id) && Orderly(st, step)
    ensures var after := Next(st, step);
            Unattended(after, id) && after.uploads[id] == st.uploads[id] && !IsLive(after.queue, id)
  {
    assert !TakesUp(st, step, id);
    StepLeavesAlone(st, step, id);
    JobStaysOver(st, step, id);
  }

  lemma JobStaysOver(st: State, step: Step, id: UploadId)
    requires !IsLive(st.queue, id) && id !in st.queue.calls && Orderly(st, step)
    ensures !IsLive(Next(st, step).queue, id)
  {
    match step
    case SCheck(r, hash, requested, newest, folder) => CheckAsks(st, r, hash, requested, newest, folder);
    case SPlan(r, version, planned) => PlanAsks(st, r, version, planned);
    case SInsert(r, file) =>
      if Inserts(st, step) {
        InsertIs(st, r, file);
      } else {
        NoInsertIs(st, r, file);
      }
    case SDrop(_) =>
    case _ => JobStaysOverThere(st, step, id);
  }

  lemma ClaimLeavesJob(st: State, w: WorkerId, k: UploadId, id: UploadId)
    requires !IsLive(st.queue, id) && Orderly(st, SClaim(w, k))
    ensures !IsLive(Claim(st, w, k).queue, id)
  {
  }

  lemma JobStaysOverThere(st: State, step: Step, id: UploadId)
    requires !IsLive(st.queue, id) && id !in st.queue.calls && Orderly(st, step) && !Creates(step)
    ensures !IsLive(Process(st, step).queue, id)
  {
    match step
    case SFinish(w, chunker) =>
      if w in st.workers && st.workers[w] in st.uploads {
        FinishIs(st, w, chunker);
      } else {
        NoFinishIs(st, w, chunker);
      }
    case SClaim(w, k) => ClaimLeavesJob(st, w, k, id);
    case _ =>
  }

  lemma {:induction false} ForgottenRun(st: State, steps: seq<Step>, id: UploadId)
    requires Unattended(st, id) && st.uploads[id].status == Queued && !IsLive(st.queue, id) && OrderlyRun(st, steps)
    ensures var after := Run(st, steps); Unattended(after, id) && after.uploads[id] == st.uploads[id]
    decreases |steps|
  {
    if steps != [] {
      ForgottenStep(st, steps[0], id);
      ForgottenRun(Next(st, steps[0]), steps[1..], id);
    }
  }

  lemma {:induction false} FreshWorker(workers: set<WorkerId>) returns (w: WorkerId)
    ensures forall v <- workers :: v < w
  {
    if workers == {} {
      w := 0;
    } else {
      var v :| v in workers;
      var bound := FreshWorker(workers - {v});
      w := if v < bound then bound else v + 1;
      forall x | x in workers ensures x < w {
        assert x == v || x in workers - {v};
      }
    }
  }

  lemma ClaimMovesOn(st: State, id: UploadId) returns (step: Step)
    requires id in st.uploads && st.uploads[id].status == Queued && id in st.queue.jobs && st.queue.jobs[id] == Waiting
    ensures Orderly(st, step) && id in Next(st, step).uploads && Next(st, step).uploads[id].status == Processing
  {
    var w := FreshWorker(st.workers.Keys);
    step := SClaim(w, id);
    ClaimTakes(st, w, id);
  }

  lemma FailMovesOn(st: State, id: UploadId) returns (step: Step)
    requires id in st.uploads && Holds(st, id)
    ensures Orderly(st, step) && id in Next(st, step).uploads && Next(st, step).uploads[id].status == Failed
  {
    var w :| w in st.workers && st.workers[w] == id;
    step := SFail(w);
  }

  lemma RunTwo(st: State, a: Step, b: Step)
    requires Orderly(st, a) && Orderly(Next(st, a), b)
    ensures OrderlyRun(st, [a, b]) && Run(st, [a, b]) == Next(Next(st, a), b)
  {
    assert [a, b][1..] == [b] && [b][1..] == [];
    RunOne(Next(st, a), b);
  }

  ghost predicate StaysQueued(st: State, steps: seq<Step>, id: UploadId) {
    id in Run(st, steps).uploads && Run(st, steps).uploads[id].status == Queued
  }

  /** As long as it is expected, some run takes it out of QUEUED. */
  lemma ExpectedMovesOn(st: State, id: UploadId) returns (steps: seq<Step>)
    requires id in st.uploads && st.uploads[id].status == Queued && Expected(st, id)
    ensures OrderlyRun(st, steps) && !StaysQueued(st, steps, id)
  {
    if id in st.queue.calls {
      CallFails(st, id);
      steps := [SCall(id, false)];
    } else if st.queue.jobs[id] == Waiting {
      var claim := ClaimMovesOn(st, id);
      RunOne(st, claim);
      steps := [claim];
    } else if Holds(st, id) {
      var fail := FailMovesOn(st, id);
      RunOne(st, fail);
      steps := [fail];
    } else {
      var mid := Next(st, SEnd(id, true));
      var claim := ClaimMovesOn(mid, id);
      RunTwo(st, SEnd(id, true), claim);
      steps := [SEnd(id, true), claim];
    }
  }

  /** At the end of any orderly run a queued upload stays QUEUED over every orderly continuation if and only
    * if it has no job that waits or has started and no enqueue is outstanding for it. */
  lemma ForgottenIff(steps: seq<Step>, id: UploadId)
    requires OrderlyRun(EMPTY, steps)
    requires var st := Run(EMPTY, steps); id in st.uploads && st.uploads[id].status == Queued
    ensures var st := Run(EMPTY, steps);
            (forall more :: OrderlyRun(st, more) ==> StaysQueued(st, more, id)) <==> !Expected(st, id)
  {
    var st := Run(EMPTY, steps);
    RunKeepsSingle(EMPTY, steps);
    if Expected(st, id) {
      var more := ExpectedMovesOn(st, id);
      assert OrderlyRun(st, more) && !StaysQueued(st, more, id);
    } else {
      forall more | OrderlyRun(st, more) ensures StaysQueued(st, more, id) {
        ForgottenRun(st, more, id);
      }
    }
  }
}
