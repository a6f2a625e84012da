/** Trace events are numbered without gaps, and a polling client sees each of them once. */
module TaskTrace {
  import opened TaskModel

  predicate Numbered(events: seq<Event>) {
    forall i :: 0 <= i < |events| ==> events[i].sequence == i + 1
  }

  lemma {:induction false} MaxOfNumbered(events: seq<Event>)
    requires Numbered(events)
    ensures MaxSequence(events) == |events|
  {
    if events != [] {
      MaxOfNumbered(events[..|events| - 1]);
    }
  }

  /** What one emit does: refused on a stopped task unless it reports the stop; otherwise exactly one
    * event with the next number, and progress that never falls and never moves on a failed event. */
  lemma EmitAppends(st: State, stage: Stage, tool: Tool, failed: bool)
    requires Numbered(st.events)
    ensures var (after, outcome) := Emit(st, stage, tool, failed);
            && (outcome == Done <==> st.task.status != Cancelled || tool == CancelTool)
            && (outcome == Done ==> after.events == st.events + [Event(|st.events| + 1, stage, tool, failed)])
            && (outcome != Done ==> after == st)
            && Numbered(after.events)
            && after.task.progress >= st.task.progress
            && (failed ==> after.task == st.task)
            && after.task == st.task.(progress := after.task.progress)
  {
    MaxOfNumbered(st.events);
  }

  lemma PrepareKeepsNumbered(cfg: Config, st: State)
    requires Numbered(st.events)
    ensures st.events <= Prepare(cfg, st).0.events && Numbered(Prepare(cfg, st).0.events)
  {
    var moved := WithTask(st, st.task.(status := Extracting, operation := Extract, progress := 10));
    EmitAppends(moved, Initialized, QueueExtractionTool, false);
  }

  lemma RequestKeepsNumbered(cfg: Config, st: State, request: Request)
    requires Numbered(st.events)
    ensures var after := Serve(cfg, st, request).0; st.events <= after.events && Numbered(after.events)
  {
    match request
    case RPrepare => PrepareKeepsNumbered(cfg, st);
    case _ =>
  }

  lemma ActionKeepsNumbered(cfg: Config, st: State, w: WorkerId, action: Action)
    requires Numbered(st.events)
    ensures var after := Act(cfg, st, w, action); st.events <= after.events && Numbered(after.events)
  {
    match action
    case AEmit(stage, tool, failed) => EmitAppends(st, stage, tool, failed);
    case _ =>
  }

  lemma StepKeepsNumbered(cfg: Config, st: State, step: Step)
    requires Numbered(st.events)
    ensures var after := Next(cfg, st, step); st.events <= after.events && Numbered(after.events)
  {
    match step
    case User(request) => RequestKeepsNumbered(cfg, st, request);
    case Work(w, action) => ActionKeepsNumbered(cfg, st, w, action);
    case StopFinished =>
      if st.stops > 0 {
        EmitAppends(st.(stops := st.stops - 1), OtherStage, CancelTool, false);
      }
    case _ =>
  }

  /** In any run the events are numbered 1..n without gaps and earlier ones are never touched. */
  lemma {:induction false} EventsAreNumbered(cfg: Config, st: State, steps: seq<Step>)
    requires Numbered(st.events)
    ensures var after := Run(cfg, st, steps); st.events <= after.events && Numbered(after.events)
    decreases |steps|
  {
    if steps != [] {
      StepKeepsNumbered(cfg, st, steps[0]);
      EventsAreNumbered(cfg, Next(cfg, st, steps[0]), steps[1..]);
    }
  }

  // ---------------------------------------------------------------- polling

  const PAGE_SIZE: nat := 200

  /** The rows after a sequence number, in order. */
  function After(events: seq<Event>, cursor: nat): seq<Event> {
    if events == [] then []
    else if events[0].sequence > cursor then [events[0]] + After(events[1..], cursor)
    else After(events[1..], cursor)
  }

  /** The events view: filter, order and slice. */
  function Page(events: seq<Event>, cursor: nat): seq<Event> {
    var rows := After(events, cursor);
    if |rows| <= PAGE_SIZE then rows else rows[..PAGE_SIZE]
  }

  // Rows numbered from `first` on.
  predicate NumberedFrom(events: seq<Event>, first: nat) {
    forall i :: 0 <= i < |events| ==> events[i].sequence == first + i
  }

  lemma {:induction false} AfterIsSuffix(events: seq<Event>, first: nat, cursor: nat)
    requires NumberedFrom(events, first) && first <= cursor + 1 <= first + |events|
    ensures After(events, cursor) == events[cursor + 1 - first..]
  {
    if events != [] {
      if cursor + 1 == first {
        AllAfter(events, first, cursor);
      } else {
        AfterIsSuffix(events[1..], first + 1, cursor);
      }
    }
  }

  lemma {:induction false} AllAfter(events: seq<Event>, first: nat, cursor: nat)
    requires NumberedFrom(events, first) && cursor < first
    ensures After(events, cursor) == events
  {
    if events != [] {
      AllAfter(events[1..], first + 1, cursor);
    }
  }

  /** A client keeps what it received; its cursor is the last sequence number it saw. */
  function Cursor(received: seq<Event>): nat {
    if received == [] then 0 else received[|received| - 1].sequence
  }

  function Poll(events: seq<Event>, received: seq<Event>): seq<Event> {
    received + Page(events, Cursor(received))
  }

  lemma PollTakesNextPage(events: seq<Event>, received: seq<Event>)
    requires Numbered(events) && received <= events
    ensures var n := |received|;
            Poll(events, received) == events[..if |events| - n <= PAGE_SIZE then |events| else n + PAGE_SIZE]
  {
    var n := |received|;
    assert NumberedFrom(events, 1);
    assert Cursor(received) == n;
    AfterIsSuffix(events, 1, n);
    assert events[..n] == received;
  }

  // The machine runs some steps, then the client polls once.
  type Burst = seq<Step>

  /** What the client has after the bursts of a run, polling once after each. */
  function Collected(cfg: Config, st: State, bursts: seq<Burst>, received: seq<Event>): seq<Event>
    decreases |bursts|
  {
    if bursts == [] then received
    else
      var after := Run(cfg, st, bursts[0]);
      Collected(cfg, after, bursts[1..], Poll(after.events, received))
  }

  function Flat(bursts: seq<Burst>): seq<Step> {
    if bursts == [] then [] else bursts[0] + Flat(bursts[1..])
  }

  /** Whatever is appended between the polls, the client always has a prefix of the trace: every
    * event it has it has once, in order and without gaps. */
  lemma {:induction false} ClientSeesPrefix(cfg: Config, st: State, bursts: seq<Burst>, received: seq<Event>)
    requires Numbered(st.events) && received <= st.events
    ensures Collected(cfg, st, bursts, received) <= Run(cfg, st, Flat(bursts)).events
    decreases |bursts|
  {
    if bursts != [] {
      var after := Run(cfg, st, bursts[0]);
      EventsAreNumbered(cfg, st, bursts[0]);
      PollTakesNextPage(after.events, received);
      RunAppend(cfg, st, bursts[0], Flat(bursts[1..]));
      ClientSeesPrefix(cfg, after, bursts[1..], Poll(after.events, received));
    }
  }

  function Polls(events: seq<Event>, received: seq<Event>, k: nat): seq<Event>
    decreases k
  {
    if k == 0 then received else Polls(events, Poll(events, received), k - 1)
  }

  /** And once appending pauses, a bounded number of polls brings the rest. */
  lemma {:induction false} ClientCatchesUp(events: seq<Event>, received: seq<Event>, k: nat)
    requires Numbered(events) && received <= events
    requires |events| - |received| <= k * PAGE_SIZE
    ensures Polls(events, received, k) == events
    decreases k
  {
    if k > 0 {
      PollTakesNextPage(events, received);
      var polled := Poll(events, received);
      assert |events| - |polled| <= (k - 1) * PAGE_SIZE;
      ClientCatchesUp(events, polled, k - 1);
    }
  }
}
