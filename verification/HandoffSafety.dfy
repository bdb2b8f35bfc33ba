/** The guarantees of a handoff as a whole. */
module HandoffSafety {
  import opened Options
  import opened Faults
  import opened Git
  import opened HandoffRepository
  import opened GitHandoffCoordinator
  import opened HandoffRecovery
  import opened HandoffTransfer
  import opened HandoffFinalize
  import opened HandoffSurvival
  import opened HandoffService

  /** A freshly created operation on a repository that has never seen its markers. */
  ghost predicate Fresh(w: World, input: Input) {
    && Wf(w.repo)
    && w.row.status.Running? && w.row.step.Preflight? && w.row.journal == EMPTY_JOURNAL
    && FindMarker(w.repo.stashes, SourceMarker(input.markerId)) == None
    && FindMarker(w.repo.stashes, DestinationMarker(input.markerId)) == None
  }

  ghost predicate Untouched(base: Repo, w: World) { w.repo == base && w.row.journal.sourceHead.None? }

  /** A running operation that startup recovery can undo: Git was not touched, or the durable journal
      leads back to the original state. */
  ghost predicate Undoable(base: Repo, o: Option<Origin>, w: World) {
    if o.None? then Untouched(base, w)
    else o.value.repo == base && Begins(o.value) && Recoverable(o.value, w.repo) && Guides(w.row.journal, o.value, w.repo)
  }

  lemma AdmitKeeps(r: Run, created: bool)
    requires r.live && !r.rejected && r.w.row.status.Running? && r.w.row.step.Preflight? && r.w.row.journal == EMPTY_JOURNAL
    ensures var r' := Admit(r, created);
            && !r'.rejected && r'.w.repo == r.w.repo && r'.w.row.status.Running? && r'.w.row.journal.sourceHead.None?
            && (r'.live ==> !r'.w.env.crashed && r'.w.row.step == PrepareDestination)
            && (r'.live ==> r'.w.row.journal == EMPTY_JOURNAL.(destinationCreated := created))
            && (r'.live ==> r'.journal == r.journal && r'.warnings == r.warnings)
  {
    var r1 := Port(r);
    StepIsAccepted(r1, StopSource, NO_CHANGE);
    var r2 := Port(Port(Port(Mark(r1, StopSource))));
    StepIsAccepted(r2, PrepareDestination, NO_CHANGE);
    var r3 := Port(Mark(r2, PrepareDestination));
    StepIsAccepted(r3, PrepareDestination, NO_CHANGE.(journal := EMPTY_JOURNAL.(destinationCreated := true)));
  }

  /** The recovery journal is durable before the first Git mutation. */
  lemma CheckpointPrepares(o: Origin, r: Run)
    requires Begins(o) && r.live && !r.rejected && r.w.repo == o.repo && r.w.row.status.Running? && r.w.row.step == PrepareDestination
    requires r.w.row.journal.sourceHead.None? && r.w.row.journal.sourceStashRef.None? && r.w.row.journal.destinationStashRef.None?
    requires !r.w.row.journal.destinationStashApplied && r.w.row.journal.destinationBranch.None? && r.w.row.journal.destinationStashMarker.None?
    ensures var r' := CheckpointJournal(r, CreateJournal(o.plan, o.id));
            && !r'.rejected && r'.w.repo == o.repo && r'.w.row.status.Running?
            && (if r'.live then Prepared(o, r') else r'.w.row == r.w.row)
  {
    assert Extends(o.repo, o.repo) by { assert o.repo.stashes[0..] == o.repo.stashes; }
  }

  lemma {:induction false} WarningsAreAccepted(o: Origin, r: Run, warnings: seq<string>)
    requires Done(o, r)
    ensures var r' := SaveWarnings(r, warnings);
            Done(o, r') && r'.journal == r.journal && (r'.live ==> r.live)
    decreases |warnings|
  {
    if warnings != [] {
      var change := NO_CHANGE.(warning := Some(warnings[0]));
      StepIsAccepted(r, ApplySourceChanges, change);
      assert MergeJournal(r.w.row.journal, EMPTY_JOURNAL) == r.w.row.journal;
      WarningsAreAccepted(o, Save(r, ApplySourceChanges, change), warnings[1..]);
    }
  }

  /** A run that has only marked steps since `base`. */
  ghost predicate OnlyMarked(base: Run, r: Run) {
    !r.rejected && r.journal == base.journal && r.w.repo == base.w.repo && r.w.row.journal == base.w.row.journal
  }

  lemma MarkStaysMarked(base: Run, r: Run, step: Step, change: Change)
    requires OnlyMarked(base, r) && r.w.row.status.Running? && change.journal == EMPTY_JOURNAL
    requires r.live ==> StepIndex(step) - StepIndex(r.w.row.step) in {0, 1}
    ensures var r' := Save(r, step, change);
            && OnlyMarked(base, r')
            && (r'.live ==> r.live && !r'.w.env.crashed && r'.w.row.step == step)
            && r'.w.row.status == (if r'.live && step.AwaitClientTransfer? then AwaitingClient else Running)
  {
    StepIsAccepted(r, step, change);
  }

  /** From a delivered transfer, every remaining step is accepted and the last one awaits the client. */
  lemma HandOverIsAccepted(o: Origin, r: Run, thread: string)
    requires Done(o, r) && r.live
    ensures var r' := HandOver(r, thread);
            && OnlyMarked(r, r')
            && (if r'.live then r'.w.row.status.AwaitingClient? && r'.w.row.step == AwaitClientTransfer && !r'.w.env.crashed
                else r'.w.row.status.Running?)
  {
    hide SaveWarnings;
    WarningsAreAccepted(o, r, r.warnings);
    var r1 := SaveWarnings(r, r.warnings);
    WarningsKeepRepo(r, r.warnings);
    MarkStaysMarked(r, r1, ForkConversation, NO_CHANGE);
    var r2 := Port(Mark(r1, ForkConversation));
    var change := NO_CHANGE.(targetThread := Some(thread));
    MarkStaysMarked(r, r2, TransferCoreState, change);
    var r3 := Port(Save(r2, TransferCoreState, change));
    MarkStaysMarked(r, r3, AwaitClientTransfer, NO_CHANGE);
  }

  lemma {:induction false} WarningsKeepRepo(r: Run, warnings: seq<string>)
    ensures SaveWarnings(r, warnings).w.repo == r.w.repo && SaveWarnings(r, warnings).w.row.journal == r.w.row.journal
    decreases |warnings|
  {
    if warnings != [] {
      assert MergeJournal(r.w.row.journal, EMPTY_JOURNAL) == r.w.row.journal;
      WarningsKeepRepo(Save(r, ApplySourceChanges, NO_CHANGE.(warning := Some(warnings[0]))), warnings[1..]);
    }
  }

  function OriginOf(base: Repo, input: Input, plan: Option<Plan>): Option<Origin> {
    if plan.None? then None else Some(Origin(plan.value, base, input.markerId))
  }

  ghost predicate BodySafe(base: Repo, input: Input, b: Body) {
    var o := OriginOf(base, input, b.plan);
    && !b.run.rejected
    && (o.Some? ==> Begins(o.value))
    && (b.run.live ==> o.Some? && b.run.w.row.status.AwaitingClient? && Delivered(o.value, b.run) && !b.run.w.env.crashed)
    && (b.run.live ==> Guides(b.run.journal, o.value, b.run.w.repo) && Recoverable(o.value, b.run.w.repo) && Agrees(b.run.w.row.journal, b.run.journal))
    && (!b.run.live ==> b.run.w.row.status.Running? && Undoable(base, o, b.run.w))
    && (b.transferred.Some? ==> o.Some? && Guides(b.transferred.value, o.value, b.run.w.repo))
  }

  lemma MoveGitIsSafe(base: Repo, input: Input, plan: Plan, ready: Run)
    requires var o := Origin(plan, base, input.markerId);
             && Begins(o) && !ready.rejected && ready.w.row.status.Running? && ready.w.repo == base
             && (if ready.live then Prepared(o, ready) else Untouched(base, ready.w))
    ensures BodySafe(base, input, MoveGit(ready, plan, input.forkedThread))
  {
    var o := Origin(plan, base, input.markerId);
    if ready.live {
      TransferIsRecoverable(o, ready);
      var moved := Transfer(o.plan, ready);
      if moved.live { HandedOverIsSafe(o, input, moved); }
    }
  }

  lemma HandedOverIsSafe(o: Origin, input: Input, moved: Run)
    requires o.id == input.markerId && Begins(o) && Done(o, moved) && moved.live
    ensures BodySafe(o.repo, input, Body(HandOver(moved, input.forkedThread), Some(o.plan), Some(moved.journal)))
  {
    HandOverIsAccepted(o, moved, input.forkedThread);
  }

  /** The body of `startOwned`, with any verdicts: no step is refused; a body that runs through has
      delivered and awaits the client; one that does not leaves a running operation that can be undone. */
  lemma BodyIsSafe(w: World, input: Input)
    requires Fresh(w, input)
    ensures BodySafe(w.repo, input, StartBody(w, input))
  {
    var start := Run(w, EMPTY_JOURNAL, [], None, false);
    AdmitKeeps(start, input.createdForOperation);
    var admitted := Admit(start, input.createdForOperation);
    if admitted.live {
      InspectFits(admitted.w, input.direction, input.defaultBranch);
      var (w1, inspected) := Inspect(admitted.w, input.direction, input.defaultBranch);
      if inspected.Ok? {
        var o := Origin(inspected.value, w.repo, input.markerId);
        CheckpointPrepares(o, admitted.(w := w1));
        MoveGitIsSafe(w.repo, input, inspected.value, CheckpointJournal(admitted.(w := w1), CreateJournal(o.plan, o.id)));
      }
    }
  }

  /** What `startOwned` owes, given the repository it started from. */
  ghost predicate StartSafe(base: Repo, input: Input, s: Started) {
    var o := OriginOf(base, input, s.plan);
    && !s.rejected
    && (o.Some? ==> Begins(o.value))
    && (s.returned <==> s.w.row.status.AwaitingClient?)
    && (s.returned ==> o.Some? && s.w.repo.destination.head == OnBranch(o.value.plan.sourceBranch) && base.source.changes <= s.w.repo.destination.changes)
    && (s.w.row.status.Failed? && (s.report.None? || Trusted(s.report.value)) ==>
          s.w.repo.source == base.source && s.w.repo.destination == base.destination)
    && (s.w.row.status.Running? && (s.report.None? || s.report.value.sighted) ==> Undoable(base, o, s.w))
    && Held(base, input.markerId, s.w.repo) && !s.w.row.status.Completed?
  }

  lemma UnwindIsSafe(base: Repo, input: Input, b: Body)
    requires BodySafe(base, input, b) && !b.run.live
    ensures StartSafe(base, input, Unwind(b))
  {
    var o := OriginOf(base, input, b.plan);
    var (w1, forkGone) := Query(b.run.w);
    var report := UnwindGit(b, w1);
    if o.Some? {
      var j := if b.transferred.Some? then b.transferred.value else w1.row.journal;
      RollbackRestores(o.value, w1, j);
      assert Discharges(o.value, b.run.w, report.value);
      RecoverableHolds(o.value, w1.repo);
      RollbackHolds(base, input.markerId, b.plan.value, w1, j);
    }
    UnwindRestIsSafe(base, input, b, w1, forkGone, report);
  }

  lemma UnwindRestIsSafe(base: Repo, input: Input, b: Body, w: World, forkGone: bool, report: Option<Report>)
    requires BodySafe(base, input, b) && !b.run.live
    requires w.repo == b.run.w.repo && w.row == b.run.w.row
    requires b.plan.Some? <==> report.Some?
    requires report.Some? ==> Discharges(OriginOf(base, input, b.plan).value, b.run.w, report.value) && Held(base, input.markerId, report.value.w.repo)
    ensures StartSafe(base, input, UnwindRest(b, w, forkGone, report))
  {
    ItselfHolds(base, input.markerId);
    if report.Some? {
      ReportUnwinds(base, OriginOf(base, input, b.plan).value, b, report.value);
    }
  }

  lemma ReportUnwinds(base: Repo, o: Origin, b: Body, report: Report)
    requires Begins(o) && o.repo == base && Undoable(base, Some(o), b.run.w) && Discharges(o, b.run.w, report)
    ensures Extends(report.w.repo, base)
    ensures Guides(b.run.w.row.journal, o, report.w.repo)
  {
    ExtendsIsTransitive(report.w.repo, b.run.w.repo, base);
    SameStashesSameGuide(b.run.w.row.journal, o, b.run.w.repo, report.w.repo);
  }

  /** Main result on `startOwned`, with any verdicts.  It returns only with everything delivered and the
      operation awaiting the client.  When it throws, an operation recorded as failed has both worktrees
      back as they were, unless a rollback probe was refused; an operation left running, whatever
      killed it, can still be undone, again unless a probe was refused; and in no case, refused probes and
      failed rollbacks included, is any work of either worktree lost, or a stash dropped. */
  lemma StartIsSafe(w: World, input: Input)
    requires Fresh(w, input)
    ensures StartSafe(w.repo, input, StartOwned(w, input))
  {
    BodyIsSafe(w, input);
    var b := StartBody(w, input);
    if b.run.live { RecoverableHolds(OriginOf(w.repo, input, b.plan).value, b.run.w.repo); } else { UnwindIsSafe(w.repo, input, b); }
  }

  lemma SameStashesSameGuide(j: Journal, o: Origin, repo: Repo, next: Repo)
    requires Guides(j, o, repo) && SourceStash(o, next) == SourceStash(o, repo) && DestinationStash(o, next) == DestinationStash(o, repo)
    ensures Guides(j, o, next)
  {
  }

  lemma {:induction false} WarningsTouchOnlyWarnings(w: World, warnings: seq<string>)
    ensures var (w', _) := AppendWarnings(w, warnings);
            w'.repo == w.repo && w'.row.status == w.row.status && w'.row.journal == w.row.journal
    decreases |warnings|
  {
    if warnings != [] {
      var (w1, ok) := Warned(w, warnings[0]);
      if ok { WarningsTouchOnlyWarnings(w1, warnings[1..]); }
    }
  }

  lemma TidyIsFinalize(w: World, journal: Journal)
    ensures var (w', _) := Tidy(w, journal);
            && w'.row.status == w.row.status && w'.row.journal == w.row.journal
            && (w'.repo == w.repo || exists env :: w'.repo == Finalize(w.(env := env), journal).0.repo)
  {
    hide DropOid, AppendWarnings;
    var (w1, found) := Query(w);
    var (w2, warnings) := Finalize(w1, journal);
    FinalizeKeepsRow(w1, journal);
    WarningsTouchOnlyWarnings(w2, warnings);
    assert w1 == w.(env := w1.env);
    assert found ==> Tidy(w, journal).0.repo == w2.repo;
  }

  lemma FinalizeKeepsRow(w: World, journal: Journal)
    ensures Finalize(w, journal).0.row == w.row
  {
  }

  lemma CleanUpIsFinalize(w: World, journal: Journal)
    ensures var (w', _) := CleanUp(w, journal);
            && w'.row.status == w.row.status
            && (w'.repo == w.repo || exists env :: w'.repo == Finalize(w.(env := env), journal).0.repo)
  {
    hide Tidy, Finalize;
    TidyIsFinalize(w, journal);
  }

  /** Stashes are dropped only once the operation is completed, and completion comes only from an
      operation that awaited the client, at the revision the client saw. */
  lemma FinalizeOnlyWhenCompleted(w: World, revision: nat)
    ensures var (w', _) := Acknowledge(w, revision);
            && (w'.repo != w.repo ==> w'.row.status.Completed?)
            && (w'.row.status != w.row.status ==>
                  w'.row.status.Completed? && w.row.status.AwaitingClient? && w.row.targetThread.Some? && w.row.revision == revision)
  {
    if w.row.status.Completed? {
      CleanUpIsFinalize(w, w.row.journal);
    } else {
      var (w1, ok) := Query(w);
      if ok && CompleteRow(w1.row, revision).Ok? {
        CleanUpIsFinalize(w1.(row := CompleteRow(w1.row, revision).value), w.row.journal);
      }
    }
  }

  /** A whole handoff, whatever fails in it: one that returns and is acknowledged has handed over every change set, and
      one that throws still holds everything, acknowledged or not. */
  lemma HandoffLosesNothing(w: World, input: Input, revision: nat)
    requires Fresh(w, input)
    ensures var s := StartOwned(w, input);
            var (w', _) := Acknowledge(s.w, revision);
            if s.returned then s.plan.Some? && NothingLost(Origin(s.plan.value, w.repo, input.markerId), w'.repo)
            else w'.repo == s.w.repo && Held(w.repo, input.markerId, w'.repo)
  {
    StartIsSafe(w, input);
    BodyIsSafe(w, input);
    var b := StartBody(w, input);
    var s := StartOwned(w, input);
    if s.returned {
      assert s.w == b.run.w && s.plan == b.plan;
      AcknowledgeLosesNothing(Origin(s.plan.value, w.repo, input.markerId), b, revision);
    } else {
      FinalizeOnlyWhenCompleted(s.w, revision);
    }
  }

  lemma AcknowledgeLosesNothing(o: Origin, b: Body, revision: nat)
    requires Begins(o) && Recoverable(o, b.run.w.repo) && Delivered(o, b.run) && Guides(b.run.journal, o, b.run.w.repo)
    requires Agrees(b.run.w.row.journal, b.run.journal)
    ensures NothingLost(o, Acknowledge(b.run.w, revision).0.repo)
  {
    var w := b.run.w;
    KeptLosesNothing(o, b.run, w.repo.(stashes := Keep(w.repo.stashes, {})), {});
    AbsentIsKept(w.repo.stashes, {});
    forall w': World | w'.repo == w.repo ensures NothingLost(o, Finalize(w', w.row.journal).0.repo) {
      FinalizeLosesNothing(o, b.run, w', w.row.journal);
    }
    CleanUpIsFinalize(w, w.row.journal);
    var (w1, _) := Query(w);
    if CompleteRow(w1.row, revision).Ok? {
      CleanUpIsFinalize(w1.(row := CompleteRow(w1.row, revision).value), w.row.journal);
    }
  }
}
