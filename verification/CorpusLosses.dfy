/** Whole runs of one upload from the empty tables: a retry that is lost, and an enqueue that fails late. */
module CorpusLosses {
  import opened Prelude
  import opened Corpus
  import opened CorpusRuns
  import opened CorpusQueue
  import opened CorpusRace

  /** Where upload 0 stands: its status, its holder, its outstanding enqueues and its job. */
  ghost predicate At(st: State, status: UploadStatus, holder: Option<WorkerId>, calls: nat, job: Job) {
    && 0 in st.uploads && st.uploads[0] == Row(A, status)
    && st.workers == (if holder.Some? then map[holder.value := 0] else map[])
    && st.queue.calls[0] == calls && 0 in st.queue.jobs && st.queue.jobs[0] == job
  }

  lemma FirstIsOrderly()
    ensures OrderlyRun(EMPTY, FIRST) && Run(EMPTY, FIRST) == UPLOADED
  {
    FirstUploads();
    assert FIRST[1..] == [FIRST[1]] && FIRST[1..][1..] == [];
  }

  lemma Enqueued()
    ensures At(Next(UPLOADED, SCall(0, true)), Queued, None, 0, Waiting)
  {
  }

  lemma Claims(st: State, w: WorkerId, status: UploadStatus, calls: nat)
    requires At(st, status, None, calls, Waiting) && (status == Queued || status == Failed)
    ensures Orderly(st, SClaim(w, 0)) && At(Next(st, SClaim(w, 0)), Processing, Some(w), calls, Started)
  {
    ClaimTakes(st, w, 0);
  }

  lemma Fails(st: State, w: WorkerId, status: UploadStatus, calls: nat)
    requires At(st, status, Some(w), calls, Started)
    ensures Orderly(st, SFail(w)) && At(Next(st, SFail(w)), Failed, None, calls, Started)
  {
  }

  lemma Retries(st: State, calls: nat, job: Job)
    requires At(st, Failed, None, calls, job)
    ensures Orderly(st, SRetry(0)) && At(Next(st, SRetry(0)), Queued, None, calls + 1, job)
  {
  }

  lemma Calls(st: State, status: UploadStatus, calls: nat)
    requires At(st, status, None, calls, Started) && calls > 0
    ensures Orderly(st, SCall(0, true)) && At(Next(st, SCall(0, true)), status, None, calls - 1, Started)
  {
  }

  lemma CallsInVain(st: State, status: UploadStatus, holder: Option<WorkerId>, calls: nat, job: Job)
    requires At(st, status, holder, calls, job) && calls > 0
    ensures Orderly(st, SCall(0, false)) && At(Next(st, SCall(0, false)), Failed, holder, calls - 1, job)
  {
  }

  lemma Ends(st: State, status: UploadStatus, calls: nat, again: bool)
    requires At(st, status, None, calls, Started)
    ensures Orderly(st, SEnd(0, again)) && At(Next(st, SEnd(0, again)), status, None, calls, if again then Waiting else Over)
  {
  }

  lemma RunsOn(steps: seq<Step>, step: Step)
    requires OrderlyRun(EMPTY, steps) && Orderly(Run(EMPTY, steps), step)
    ensures OrderlyRun(EMPTY, steps + [step]) && Run(EMPTY, steps + [step]) == Next(Run(EMPTY, steps), step)
  {
    OrderlyMore(EMPTY, steps, step);
    RunMore(EMPTY, steps, step);
  }

  /** The upload is enqueued, claimed and fails; its job has not ended yet. */
  const FAILED: seq<Step> := FIRST + [SCall(0, true)] + [SClaim(1, 0)] + [SFail(1)]

  lemma FailedRun()
    ensures OrderlyRun(EMPTY, FAILED) && At(Run(EMPTY, FAILED), Failed, None, 0, Started)
  {
    FirstIsOrderly();
    RunsOn(FIRST, SCall(0, true));
    Enqueued();
    var steps := FIRST + [SCall(0, true)];
    Claims(Run(EMPTY, steps), 1, Queued, 0);
    RunsOn(steps, SClaim(1, 0));
    steps := steps + [SClaim(1, 0)];
    Fails(Run(EMPTY, steps), 1, Processing, 0);
    RunsOn(steps, SFail(1));
  }

  // ---------------------------------------------------------------- a retry that is lost

  const LOST: seq<Step> := FAILED + [SRetry(0)] + [SCall(0, true)] + [SEnd(0, false)]

  /** The retry finds the failed job still started and leaves it at that; when that job then ends, the upload
    * is QUEUED and stays so over every orderly continuation. */
  lemma RetryIsLost(more: seq<Step>)
    requires OrderlyRun(Run(EMPTY, LOST), more)
    ensures OrderlyRun(EMPTY, LOST) && StaysQueued(Run(EMPTY, LOST), more, 0)
  {
    FailedRun();
    var steps := FAILED;
    Retries(Run(EMPTY, steps), 0, Started);
    RunsOn(steps, SRetry(0));
    steps := steps + [SRetry(0)];
    Calls(Run(EMPTY, steps), Queued, 1);
    RunsOn(steps, SCall(0, true));
    steps := steps + [SCall(0, true)];
    Ends(Run(EMPTY, steps), Queued, 0, false);
    RunsOn(steps, SEnd(0, false));
    ForgottenIff(LOST, 0);
  }

  // ---------------------------------------------------------------- an enqueue that fails late

  /** The failed job is scheduled again and starts between a retry and its enqueue. */
  const OVERLAPPED: seq<Step> := FAILED + [SEnd(0, true)] + [SRetry(0)] + [SClaim(2, 0)]

  lemma OverlappedRun()
    ensures OrderlyRun(EMPTY, OVERLAPPED) && At(Run(EMPTY, OVERLAPPED), Processing, Some(2), 1, Started)
  {
    FailedRun();
    var steps := FAILED;
    Ends(Run(EMPTY, steps), Failed, 0, true);
    RunsOn(steps, SEnd(0, true));
    steps := steps + [SEnd(0, true)];
    Retries(Run(EMPTY, steps), 0, Waiting);
    RunsOn(steps, SRetry(0));
    steps := steps + [SRetry(0)];
    Claims(Run(EMPTY, steps), 2, Queued, 1);
    RunsOn(steps, SClaim(2, 0));
  }

  lemma Drops(st: State, text: string)
    requires At(st, Failed, Some(2), 0, Started)
    ensures var after := Next(st, SFinish(2, Texts(text)));
            At(after, Failed, None, 0, Started) && after.rows == st.rows
  {
    FinishIs(st, 2, Texts(text));
  }

  lemma Succeeds(st: State, text: string)
    requires At(st, Processing, Some(2), 1, Started)
    ensures var after := Next(st, SFinish(2, Texts(text)));
            0 in after.uploads && after.uploads[0].status == Succeeded && after.queue == st.queue
  {
    IndexOne(A, text);
    OneChunk(Chunk(0, A, text));
    assert Writes(st, 2, Texts(text));
    FinishIs(st, 2, Texts(text));
  }

  /** If the enqueue of that retry fails, it marks the upload FAILED under the worker, whose rows are dropped. */
  lemma LateEnqueueDropsRows(text: string)
    ensures var late := OVERLAPPED + [SCall(0, false)];
            && OrderlyRun(EMPTY, late) && !NeverLate(EMPTY, late)
            && var after := Next(Run(EMPTY, late), SFinish(2, Texts(text)));
               0 in after.uploads && after.uploads[0].status == Failed && after.rows == Run(EMPTY, late).rows
  {
    OverlappedRun();
    CallsInVain(Run(EMPTY, OVERLAPPED), Processing, Some(2), 1, Started);
    RunsOn(OVERLAPPED, SCall(0, false));
    var late := OVERLAPPED + [SCall(0, false)];
    Drops(Run(EMPTY, late), text);
    assert Run(EMPTY, late).workers[2] == 0;
    if NeverLate(EMPTY, late) {
      HeldIsProcessingIff(late);
      AlwaysAtEnd(EMPTY, late);
    }
  }

  lemma {:induction false} AlwaysAtEnd(st: State, steps: seq<Step>)
    requires AlwaysProcessing(st, steps)
    ensures HeldIsProcessing(Run(st, steps))
    decreases |steps|
  {
    if steps != [] {
      AlwaysAtEnd(Next(st, steps[0]), steps[1..]);
    }
  }

  /** If the worker is done first, its success is undone. */
  lemma LateEnqueueUndoesSuccess(text: string)
    ensures var done := OVERLAPPED + [SFinish(2, Texts(text))];
            && OrderlyRun(EMPTY, done)
            && 0 in Run(EMPTY, done).uploads && Run(EMPTY, done).uploads[0].status == Succeeded
            && var after := Next(Run(EMPTY, done), SCall(0, false));
               0 in after.uploads && after.uploads[0].status == Failed
  {
    OverlappedRun();
    RunsOn(OVERLAPPED, SFinish(2, Texts(text)));
    Succeeds(Run(EMPTY, OVERLAPPED), text);
  }
}
