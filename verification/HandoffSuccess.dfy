/** When nothing fails: exactly which handoffs succeed. */
module HandoffSuccess {
  import opened Options
  import opened Faults
  import opened Git
  import opened HandoffRepository
  import opened GitHandoffCoordinator
  import opened HandoffRecovery
  import opened HandoffTransfer
  import opened HandoffService
  import opened HandoffSafety

  lemma CalmAttempt(e: Env)
    requires Calm(e)
    ensures Attempt(e).1 && Calm(Attempt(e).0)
  {
  }

  ghost predicate CalmRun(r: Run) { r.live && !r.rejected && Calm(r.w.env) }

  lemma CalmSave(r: Run, step: Step, change: Change)
    requires CalmRun(r) && !Save(r, step, change).rejected
    ensures CalmRun(Save(r, step, change))
  {
    CalmAttempt(r.w.env);
  }

  lemma CalmRequired(r: Run, effect: Option<Repo>, code: ErrorCode)
    requires CalmRun(r)
    ensures var r' := Required(r, effect, code);
            Calm(r'.w.env) && (if effect.Some? then r'.live else r'.thrown == Some(code))
  {
    CalmAttempt(r.w.env);
  }

  lemma CalmCapture(w: World, side: Side, marker: Marker)
    requires Calm(w.env) && Wf(w.repo)
    ensures var (w', captured) := Capture(w, side, marker);
            Calm(w'.env) && !captured.Thrown?
  {
    CalmAttempt(w.env);
    var (w1, _) := Query(w);
    CalmAttempt(w1.env);
    var (w2, _) := Query(w1);
    CalmAttempt(w2.env);
    var (w3, _) := Mutate(w2, Some(w2.repo.Push(side, marker)));
    CalmAttempt(w3.env);
  }

  // ----- the transfer -----

  lemma CalmCaptureSource(o: Origin, r: Run)
    requires Begins(o) && Prepared(o, r) && Calm(r.w.env)
    ensures CalmRun(CaptureSourceStage(r))
  {
    CalmCapture(r.w, Source, MarkerOf(r.journal.sourceStashMarker));
    CaptureSourceSafe(o, r);
    forall r': Run | CalmRun(r') && !OnStep(r', CaptureSource).rejected ensures CalmRun(OnStep(r', CaptureSource)) {
      CalmSave(r', CaptureSource, NO_CHANGE.(journal := r'.journal));
    }
  }

  lemma CalmCaptureDestination(o: Origin, r: Run)
    requires Begins(o) && AfterCaptureSource(o, r) && CalmRun(r)
    ensures CalmRun(CaptureDestinationStage(o.plan, r))
  {
    CaptureDestinationSafe(o, r);
    if o.plan.direction.LocalToWorktree? {
      CalmCapture(r.w, Destination, MarkerOf(r.journal.destinationStashMarker));
      CalmRecorded(r, CaptureDestinationStage(o.plan, r));
    }
  }

  lemma CalmRecorded(r: Run, r': Run)
    requires CalmRun(r)
    requires var (w1, captured) := Capture(r.w, Destination, MarkerOf(r.journal.destinationStashMarker));
             && Calm(w1.env) && !captured.Thrown?
             && r' == OnStep(if captured.Nothing? then r.(w := w1) else r.(w := w1, journal := r.journal.(destinationStashRef := Some(captured.oid))), CaptureSource)
    requires !r'.rejected
    ensures CalmRun(r')
  {
    var (w1, captured) := Capture(r.w, Destination, MarkerOf(r.journal.destinationStashMarker));
    var r1 := if captured.Nothing? then r.(w := w1) else r.(w := w1, journal := r.journal.(destinationStashRef := Some(captured.oid)));
    CalmSave(r1, CaptureSource, NO_CHANGE.(journal := r1.journal));
  }

  /** The branch the source worktree is left on exists and is not checked out in the destination. */
  predicate Parkable(plan: Plan, repo: Repo) {
    plan.direction.LocalToWorktree? ==>
      plan.fallbackBranch.Some? && plan.fallbackBranch.value in repo.branches && repo.destination.head != OnBranch(plan.fallbackBranch.value)
  }

  lemma CalmRelease(o: Origin, r: Run)
    requires Begins(o) && AfterCaptureDestination(o, r) && CalmRun(r)
    ensures var r' := ReleaseStage(o.plan, r);
            if Parkable(o.plan, o.repo) then CalmRun(r') else r'.thrown == Some(CheckoutFailed)
  {
    ReleaseSafe(o, r);
    var effect := if o.plan.direction.LocalToWorktree? then r.w.repo.CheckoutBranch(Source, o.plan.fallbackBranch.value)
                  else r.w.repo.CheckoutCommit(Source, o.plan.sourceHead);
    CalmRequired(r, effect, CheckoutFailed);
    var r1 := Required(r, effect, CheckoutFailed);
    var r2 := if o.plan.direction.LocalToWorktree? || !r1.live then r1 else r1.(journal := r1.journal.(sourceDetached := true));
    assert effect.Some? <==> Parkable(o.plan, o.repo);
    assert ReleaseStage(o.plan, r) == OnStep(r2, ReleaseBranch);
    if r2.live { CalmSave(r2, ReleaseBranch, NO_CHANGE.(journal := r2.journal)); }
  }

  lemma CalmAcquire(o: Origin, r: Run)
    requires Begins(o) && AfterRelease(o, r) && CalmRun(r)
    ensures CalmRun(AcquireStage(o.plan, r))
  {
    AcquireSafe(o, r);
    var effect := r.w.repo.CheckoutBranch(Destination, o.plan.sourceBranch);
    assert effect.Some?;
    CalmRequired(r, effect, CheckoutFailed);
    var r1 := Required(r, effect, CheckoutFailed);
    CalmSave(r1, CheckoutDestination, NO_CHANGE.(journal := r1.journal));
  }

  lemma CalmApplySource(o: Origin, r: Run)
    requires Begins(o) && AfterAcquire(o, r) && CalmRun(r)
    ensures CalmRun(ApplySourceStage(r))
  {
    ApplySourceSafe(o, r);
    if r.journal.sourceStashRef.Some? {
      MarkedStashApplies(r.w.repo, Destination, SourceMarker(o.id));
      var effect := r.w.repo.Apply(Destination, r.journal.sourceStashRef.value);
      CalmRequired(r, effect, ApplyFailed);
      var r1 := Required(r, effect, ApplyFailed);
      CalmSave(r1, ApplySourceChanges, NO_CHANGE.(journal := r1.journal));
    }
  }

  /** Undisturbed, the destination's own work is put back, and nothing is worth a warning. */
  lemma CalmApplyDestination(o: Origin, r: Run)
    requires Begins(o) && AfterApplySource(o, r) && CalmRun(r)
    ensures var r' := ApplyDestinationStage(r);
            CalmRun(r') && r'.warnings == r.warnings && (r'.journal.destinationStashApplied <==> r.journal.destinationStashRef.Some?)
  {
    ApplyDestinationSafe(o, r);
    if r.journal.destinationStashRef.Some? {
      MarkedStashApplies(r.w.repo, Destination, DestinationMarker(o.id));
      var effect := r.w.repo.Apply(Destination, r.journal.destinationStashRef.value);
      CalmAttempt(r.w.env);
      var (w1, ok) := Mutate(r.w, effect);
      var r1 := r.(w := w1, journal := r.journal.(destinationStashApplied := true));
      CalmSave(r1, ApplySourceChanges, NO_CHANGE.(journal := r1.journal));
    }
  }

  lemma CalmLast(o: Origin, r: Run)
    requires Begins(o) && AfterApplyDestination(o, r) && CalmRun(r)
    ensures CalmRun(LastStage(r)) && LastStage(r).warnings == r.warnings
  {
    LastSafe(o, r);
    if r.journal.sourceStashRef.None? && r.journal.destinationStashRef.None? {
      CalmSave(r, ApplySourceChanges, NO_CHANGE.(journal := r.journal));
    }
  }

  lemma StoppedTakesOverNothing(plan: Plan, r: Run)
    requires !r.live
    ensures TakeOver(plan, r) == r
  {
  }

  /** An undisturbed transfer runs through exactly when the source's worktree can be parked, and then both
      worktrees' work is in the destination. */
  lemma TransferRunsThroughExactlyWhen(o: Origin, r: Run)
    requires Begins(o) && Prepared(o, r) && Calm(r.w.env)
    ensures var r' := Transfer(o.plan, r);
            && (r'.live <==> Parkable(o.plan, o.repo)) && (!r'.live ==> r'.thrown == Some(CheckoutFailed))
            && (r'.live ==> CalmRun(r') && r'.warnings == r.warnings
                            && r'.w.repo.destination == Tree(OnBranch(o.plan.sourceBranch), o.repo.source.changes + o.repo.destination.changes))
  {
    CaptureSourceSafe(o, r);
    CalmCaptureSource(o, r);
    var r1 := CaptureSourceStage(r);
    CaptureDestinationSafe(o, r1);
    CalmCaptureDestination(o, r1);
    var r2 := CaptureDestinationStage(o.plan, r1);
    ReleaseSafe(o, r2);
    CalmRelease(o, r2);
    var r3 := ReleaseStage(o.plan, r2);
    assert r3 == GiveUp(o.plan, r);
    if Parkable(o.plan, o.repo) {
      WarningsUntouched(o.plan, r);
      TakesOver(o, r3);
    } else {
      StoppedTakesOverNothing(o.plan, r3);
    }
  }

  lemma TakesOver(o: Origin, r: Run)
    requires Begins(o) && AfterRelease(o, r) && CalmRun(r)
    ensures var r' := TakeOver(o.plan, r);
            && CalmRun(r') && r'.warnings == r.warnings
            && r'.w.repo.destination == Tree(OnBranch(o.plan.sourceBranch), o.repo.source.changes + o.repo.destination.changes)
  {
    AcquireSafe(o, r);
    CalmAcquire(o, r);
    var r4 := AcquireStage(o.plan, r);
    ApplySourceSafe(o, r4);
    CalmApplySource(o, r4);
    var r5 := ApplySourceStage(r4);
    ApplyDestinationSafe(o, r5);
    CalmApplyDestination(o, r5);
    var r6 := ApplyDestinationStage(r5);
    LastSafe(o, r6);
    CalmLast(o, r6);
    LaterWarnings(o.plan, r);
    LastKeepsWork(r6);
    assert o.repo.source.changes + [] == o.repo.source.changes;
  }

  lemma LastKeepsWork(r: Run)
    ensures LastStage(r).w.repo == r.w.repo
  {
  }

  lemma WarningsUntouched(plan: Plan, r: Run)
    ensures GiveUp(plan, r).warnings == r.warnings
  {
    var r1 := CaptureSourceStage(r);
    var r2 := CaptureDestinationStage(plan, r1);
    CapturesWarnNothing(plan, r);
    CapturesWarnNothing(plan, r1);
    ReleaseWarnsNothing(plan, r2);
  }

  lemma CapturesWarnNothing(plan: Plan, r: Run)
    ensures CaptureSourceStage(r).warnings == r.warnings && CaptureDestinationStage(plan, r).warnings == r.warnings
  {
  }

  lemma ReleaseWarnsNothing(plan: Plan, r: Run)
    ensures ReleaseStage(plan, r).warnings == r.warnings
  {
  }

  lemma LaterWarnings(plan: Plan, r: Run)
    ensures ApplySourceStage(AcquireStage(plan, r)).warnings == r.warnings
  {
  }

  // ----- the operation -----

  lemma CalmPort(r: Run)
    requires CalmRun(r)
    ensures CalmRun(Port(r))
  {
    CalmAttempt(r.w.env);
  }

  lemma CalmAdmit(r: Run, created: bool)
    requires CalmRun(r) && r.w.row.status.Running? && r.w.row.step.Preflight? && r.w.row.journal == EMPTY_JOURNAL
    ensures CalmRun(Admit(r, created))
  {
    var r0 := Port(r);
    CalmPort(r);
    StepIsAccepted(r0, StopSource, NO_CHANGE);
    CalmSave(r0, StopSource, NO_CHANGE);
    var r1 := Mark(r0, StopSource);
    CalmPort(r1);
    CalmPort(Port(r1));
    CalmPort(Port(Port(r1)));
    var r2 := Port(Port(Port(r1)));
    StepIsAccepted(r2, PrepareDestination, NO_CHANGE);
    CalmSave(r2, PrepareDestination, NO_CHANGE);
    var r3 := Port(Mark(r2, PrepareDestination));
    CalmPort(Mark(r2, PrepareDestination));
    var change := NO_CHANGE.(journal := EMPTY_JOURNAL.(destinationCreated := true));
    StepIsAccepted(r3, PrepareDestination, change);
    CalmSave(r3, PrepareDestination, change);
  }

  lemma CalmFork(o: Origin, r: Run)
    requires Done(o, r) && CalmRun(r)
    ensures var r' := Port(Mark(r, ForkConversation));
            CalmRun(r') && r'.w.row.status.Running? && r'.w.row.step == ForkConversation
  {
    StepIsAccepted(r, ForkConversation, NO_CHANGE);
    CalmSave(r, ForkConversation, NO_CHANGE);
    CalmPort(Mark(r, ForkConversation));
  }

  lemma CalmTransferState(r: Run, thread: string)
    requires CalmRun(r) && r.w.row.status.Running? && r.w.row.step == ForkConversation
    ensures CalmRun(Mark(Port(Save(r, TransferCoreState, NO_CHANGE.(targetThread := Some(thread)))), AwaitClientTransfer))
  {
    var change := NO_CHANGE.(targetThread := Some(thread));
    StepIsAccepted(r, TransferCoreState, change);
    CalmSave(r, TransferCoreState, change);
    CalmPort(Save(r, TransferCoreState, change));
    var r' := Port(Save(r, TransferCoreState, change));
    StepIsAccepted(r', AwaitClientTransfer, NO_CHANGE);
    CalmSave(r', AwaitClientTransfer, NO_CHANGE);
  }

  lemma CalmHandOver(o: Origin, r: Run, thread: string)
    requires Done(o, r) && CalmRun(r) && r.warnings == []
    ensures CalmRun(HandOver(r, thread))
  {
    assert SaveWarnings(r, r.warnings) == r;
    CalmFork(o, r);
    CalmTransferState(Port(Mark(r, ForkConversation)), thread);
  }

  /** The repositories a handoff can be started on: the source is on a branch that it can give up, the destination
      has a commit and, for a move to the local checkout, no uncommitted work. */
  predicate Startable(repo: Repo, input: Input) {
    && repo.HeadCommit(Source).Some? && repo.HeadCommit(Destination).Some? && repo.source.head.OnBranch?
    && (input.direction.WorktreeToLocal? ==> !repo.Dirty(Destination))
    && (input.direction.LocalToWorktree? ==>
          && input.defaultBranch.Some? && input.defaultBranch.value != repo.source.head.branch
          && input.defaultBranch.value in repo.branches && repo.destination.head != OnBranch(input.defaultBranch.value))
  }

  lemma CalmInspect(w: World, input: Input)
    requires Calm(w.env) && Wf(w.repo)
    ensures var (w', r) := Inspect(w, input.direction, input.defaultBranch);
            && Calm(w'.env)
            && (r.Ok? && Parkable(r.value, w.repo) <==> Startable(w.repo, input))
  {
    CalmAttempt(w.env);
  }

  lemma CalmMoveGit(o: Origin, ready: Run, thread: string)
    requires Begins(o) && Prepared(o, ready) && Calm(ready.w.env) && ready.warnings == []
    ensures var r := MoveGit(ready, o.plan, thread).run;
            (r.live <==> Parkable(o.plan, o.repo)) && (!r.live ==> r.thrown == Some(CheckoutFailed))
  {
    TransferRunsThroughExactlyWhen(o, ready);
    TransferIsRecoverable(o, ready);
    var moved := Transfer(o.plan, ready);
    if moved.live { CalmHandOver(o, moved, thread); }
  }

  /** Why no handoff can be planned in a repository, the first reason that applies. */
  function Obstacle(repo: Repo, input: Input): Option<ErrorCode> {
    if repo.HeadCommit(Source).None? || repo.HeadCommit(Destination).None? then Some(NotGit)
    else if repo.source.head.Detached? then Some(if input.direction == LocalToWorktree then LocalDetached else WorktreeDetached)
    else if input.direction == LocalToWorktree && (input.defaultBranch == None || input.defaultBranch == Some(repo.source.head.branch)) then Some(DefaultBranch)
    else if input.direction == WorktreeToLocal && repo.destination.changes != [] then Some(DestinationDirty)
    else None
  }

  lemma InspectNamesObstacle(w: World, input: Input)
    ensures var (_, r) := Inspect(w, input.direction, input.defaultBranch);
            if !Attempt(w.env).1 then r == Err(NotGit)
            else if Obstacle(w.repo, input).Some? then r == Err(Obstacle(w.repo, input).value) else r.Ok?
  {
  }

  /** Undisturbed, the body of a start runs through if and only if its repository could be seen to allow it beforehand;
      otherwise it ends with the obstacle, or because the source cannot be parked on the default branch. */
  lemma BodySucceedsExactlyWhen(w: World, input: Input)
    requires Fresh(w, input) && Calm(w.env)
    ensures var thrown := StartBody(w, input).run.thrown;
            && (thrown.None? <==> Startable(w.repo, input))
            && (thrown.Some? ==> thrown == if Obstacle(w.repo, input).Some? then Obstacle(w.repo, input) else Some(CheckoutFailed))
  {
    hide Admit, Inspect, MoveGit;
    var start := Run(w, EMPTY_JOURNAL, [], None, false);
    CalmAdmit(start, input.createdForOperation);
    AdmitKeeps(start, input.createdForOperation);
    var admitted := Admit(start, input.createdForOperation);
    CalmInspect(admitted.w, input);
    CalmAttempt(admitted.w.env);
    InspectNamesObstacle(admitted.w, input);
    InspectFits(admitted.w, input.direction, input.defaultBranch);
    var (w1, inspected) := Inspect(admitted.w, input.direction, input.defaultBranch);
    if inspected.Ok? {
      var o := Origin(inspected.value, w.repo, input.markerId);
      CheckpointPrepares(o, admitted.(w := w1));
      CalmAttempt(w1.env);
      CalmMoveGit(o, CheckpointJournal(admitted.(w := w1), CreateJournal(o.plan, o.id)), input.forkedThread);
    }
  }

  /** Undisturbed, a handoff succeeds if and only if its repository could be seen to allow it beforehand. */
  lemma HandoffSucceedsExactlyWhen(w: World, input: Input)
    requires Fresh(w, input) && Calm(w.env)
    ensures StartOwned(w, input).returned <==> Startable(w.repo, input)
  {
    BodySucceedsExactlyWhen(w, input);
  }
}
