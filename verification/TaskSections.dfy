/** A section's revision number identifies its content, for any number of workers and editors. */
module TaskSections {
  import opened TaskModel

  /** Everything in a section row but the lock. */
  function Content(s: Section): Section {
    s.(locked := false)
  }

  /** One row after one transaction: untouched content, or new content under the next number. */
  predicate Revises(a: Section, b: Section) {
    Content(b) == Content(a) || b.revision == a.revision + 1
  }

  ghost predicate StepRevises(a: map<Code, Section>, b: map<Code, Section>) {
    && (forall c <- a :: c in b && Revises(a[c], b[c]))
    && (forall c <- b :: c !in a ==> b[c].revision == 1 && !b[c].locked)
  }

  lemma EditRevises(st: State, code: Code, content: string, input: StructuredInput, expected: nat)
    ensures StepRevises(st.sections, Edit(st, code, content, input, expected).0.sections)
  {
  }

  lemma LockingRevises(st: State, code: Code, locked: bool)
    ensures StepRevises(st.sections, SetLock(st, code, locked).0.sections)
    ensures StepRevises(st.sections, LockAll(st).0.sections)
  {
  }

  lemma OtherRequestsKeepSections(cfg: Config, st: State, request: Request)
    requires !request.REdit? && !request.RSetLock? && !request.RLockAll?
    ensures Serve(cfg, st, request).0.sections == st.sections
  {
  }

  lemma RequestRevises(cfg: Config, st: State, request: Request)
    ensures StepRevises(st.sections, Serve(cfg, st, request).0.sections)
  {
    match request
    case REdit(code, content, input, expected) => EditRevises(st, code, content, input, expected);
    case RSetLock(code, locked) => LockingRevises(st, code, locked);
    case RLockAll => LockingRevises(st, "", true);
    case _ => OtherRequestsKeepSections(cfg, st, request);
  }

  lemma SaveRevises(st: State, w: WorkerId, code: Code, title: string, content: string,
                    structure: Structure, issues: seq<Severity>)
    ensures StepRevises(st.sections, WorkerSave(st, w, code, title, content, structure, issues).sections)
  {
  }

  lemma OtherActionsKeepSections(cfg: Config, st: State, w: WorkerId, action: Action)
    requires !action.ASave?
    ensures Act(cfg, st, w, action).sections == st.sections
  {
  }

  lemma ActionRevises(cfg: Config, st: State, w: WorkerId, action: Action)
    ensures StepRevises(st.sections, Act(cfg, st, w, action).sections)
  {
    match action
    case ASave(code, title, content, structure, issues) =>
      SaveRevises(st, w, code, title, content, structure, issues);
    case _ => OtherActionsKeepSections(cfg, st, w, action);
  }

  /** Every content write adds exactly one, and no transaction drops a section. */
  lemma EveryStepRevises(cfg: Config, st: State, step: Step)
    ensures StepRevises(st.sections, Next(cfg, st, step).sections)
  {
    match step
    case User(request) => RequestRevises(cfg, st, request);
    case Work(w, action) => ActionRevises(cfg, st, w, action);
    case _ => AroundMoves(st, step);
  }

  /** Between any two moments of a run: revisions only grow, and equal revisions mean equal content. */
  ghost predicate RevisionOrder(a: map<Code, Section>, b: map<Code, Section>) {
    forall c <- a ::
      && c in b
      && a[c].revision <= b[c].revision
      && (a[c].revision == b[c].revision ==> Content(a[c]) == Content(b[c]))
  }

  lemma RevisionOrderTransitive(a: map<Code, Section>, b: map<Code, Section>, c: map<Code, Section>)
    requires StepRevises(a, b) && RevisionOrder(b, c)
    ensures RevisionOrder(a, c)
  {
    forall k | k in a
      ensures k in c && a[k].revision <= c[k].revision
      ensures a[k].revision == c[k].revision ==> Content(a[k]) == Content(c[k])
    {
      assert k in b && Revises(a[k], b[k]);
      if Content(b[k]) == Content(a[k]) {
        assert Content(b[k]).revision == Content(a[k]).revision;
      }
    }
  }

  lemma {:induction false} RevisionIdentifiesContent(cfg: Config, st: State, steps: seq<Step>)
    ensures RevisionOrder(st.sections, Run(cfg, st, steps).sections)
    decreases |steps|
  {
    if steps != [] {
      var next := Next(cfg, st, steps[0]);
      EveryStepRevises(cfg, st, steps[0]);
      RevisionIdentifiesContent(cfg, next, steps[1..]);
      RevisionOrderTransitive(st.sections, next.sections, Run(cfg, st, steps).sections);
    }
  }

  /** Of two edits that expect the same revision of a section, however far apart, one fails. */
  lemma EditsDoNotBothSucceed(cfg: Config, st: State, steps: seq<Step>, code: Code, expected: nat,
                              first: string, input1: StructuredInput, second: string, input2: StructuredInput)
    requires Edit(st, code, first, input1, expected).1 == Done
    ensures var later := Run(cfg, Edit(st, code, first, input1, expected).0, steps);
            Edit(later, code, second, input2, expected).1 != Done
  {
    var edited := Edit(st, code, first, input1, expected).0;
    assert edited.sections[code].revision == expected + 1;
    RevisionIdentifiesContent(cfg, edited, steps);
    EditNeedsRevision(Run(cfg, edited, steps), code, second, input2, expected);
  }

  lemma EditNeedsRevision(st: State, code: Code, content: string, input: StructuredInput, expected: nat)
    ensures Edit(st, code, content, input, expected).1 == Done ==>
              code in st.sections && st.sections[code].revision == expected && !st.sections[code].locked
  {
  }

  /** The same conflict for a worker: an editor who read the section before a generation worker
    * saved it is refused. */
  lemma EditLosesAgainstSave(cfg: Config, st: State, w: WorkerId, code: Code, title: string, text: string,
                             structure: Structure, issues: seq<Severity>, steps: seq<Step>,
                             content: string, input: StructuredInput)
    requires InPhase(st, w, Generate, Running) && st.task.status == Generating && !st.task.deleted
    requires code in st.sections && !st.sections[code].locked
    ensures var saved := WorkerSave(st, w, code, title, text, structure, issues);
            Edit(Run(cfg, saved, steps), code, content, input, st.sections[code].revision).1 != Done
  {
    var saved := WorkerSave(st, w, code, title, text, structure, issues);
    assert saved.sections[code].revision == st.sections[code].revision + 1;
    RevisionIdentifiesContent(cfg, saved, steps);
    EditNeedsRevision(Run(cfg, saved, steps), code, content, input, st.sections[code].revision);
  }

  // ---------------------------------------------------------------- locks

  predicate Locked(st: State, code: Code) {
    code in st.sections && st.sections[code].locked
  }

  lemma LockedEdit(st: State, other: Code, content: string, input: StructuredInput, expected: nat, code: Code)
    requires Locked(st, code)
    ensures var after := Edit(st, other, content, input, expected).0;
            Locked(after, code) && after.sections[code] == st.sections[code]
  {
  }

  lemma LockedRequest(cfg: Config, st: State, request: Request, code: Code)
    requires Locked(st, code) && request != RSetLock(code, false)
    ensures var after := Serve(cfg, st, request).0;
            Locked(after, code) && after.sections[code] == st.sections[code]
  {
    match request
    case REdit(other, content, input, expected) => LockedEdit(st, other, content, input, expected, code);
    case RSetLock(_, _) =>
    case RLockAll =>
    case _ => OtherRequestsKeepSections(cfg, st, request);
  }

  lemma LockedAction(cfg: Config, st: State, w: WorkerId, action: Action, code: Code)
    requires Locked(st, code)
    ensures var after := Act(cfg, st, w, action);
            Locked(after, code) && after.sections[code] == st.sections[code]
  {
    match action
    case ASave(_, _, _, _, _) =>
    case _ => OtherActionsKeepSections(cfg, st, w, action);
  }

  lemma LockedStep(cfg: Config, st: State, step: Step, code: Code)
    requires Locked(st, code) && step != User(RSetLock(code, false))
    ensures var after := Next(cfg, st, step);
            Locked(after, code) && after.sections[code] == st.sections[code]
  {
    match step
    case User(request) => LockedRequest(cfg, st, request, code);
    case Work(w, action) => LockedAction(cfg, st, w, action, code);
    case _ =>
  }

  /** A locked section stays exactly as it is until somebody unlocks it. */
  lemma {:induction false} LockedUntilUnlocked(cfg: Config, st: State, steps: seq<Step>, code: Code)
    requires Locked(st, code) && User(RSetLock(code, false)) !in steps
    ensures var after := Run(cfg, st, steps);
            Locked(after, code) && after.sections[code] == st.sections[code]
    decreases |steps|
  {
    if steps != [] {
      LockedStep(cfg, st, steps[0], code);
      LockedUntilUnlocked(cfg, Next(cfg, st, steps[0]), steps[1..], code);
    }
  }

  // ---------------------------------------------------------------- what a failed validation leaves to do

  lemma {:induction false} UnfinishedAre(order: seq<Code>, sections: map<Code, Section>, code: Code)
    ensures code in Unfinished(order, sections) <==> code in order && NeedsWork(sections, code)
  {
    if order != [] {
      UnfinishedAre(order[..|order| - 1], sections, code);
      assert order == order[..|order| - 1] + [order[|order| - 1]];
    }
  }

  /** After a failed validation exactly the failed section and the template sections that are
    * missing, blank or in error are generated again: what passed is kept. */
  lemma PendingAfterValidationFailure(cfg: Config, st: State, f: Failure, retriesLeft: nat, code: Code)
    requires st.task.status != Cancelled && f.code == ValidationFailed && !RevisionRecovery(f)
    ensures code in RecordFailure(cfg, st, f, retriesLeft).pending <==>
              (code in cfg.sectionOrder && NeedsWork(st.sections, code)) || (code == f.section && code != "")
  {
    UnfinishedAre(cfg.sectionOrder, st.sections, code);
  }
}
