/** What a handoff says about itself: the code of a failure, the warnings, and how its undoing and cleaning up went. */
module HandoffMessages {
  import opened Options
  import opened Faults
  import opened Git
  import opened HandoffRepository
  import opened GitHandoffCoordinator
  import opened HandoffRecovery
  import opened HandoffTransfer
  import opened HandoffFinalize
  import opened HandoffService
  import opened HandoffSafety
  import opened HandoffSurvival
  import opened HandoffCrashes
  import opened HandoffSuccess

  /** The next `n` attempts all happen. */
  ghost predicate Granted(e: Env, n: nat)
    decreases n
  {
    n == 0 || (Attempt(e).1 && Granted(Attempt(e).0, n - 1))
  }

  // ----- the code of a failure -----

  /** The codes of a handoff that can end it at each recorded step; any other error counts as unsupported. */
  ghost predicate CodeFits(code: ErrorCode, step: Step) {
    || code == HistoryUnsupported
    || match step
       case PrepareDestination => code in {NotGit, LocalDetached, WorktreeDetached, DefaultBranch, DestinationDirty, StashFailed}
       case CaptureSource => code in {NotGit, StashFailed, CheckoutFailed}
       case ReleaseBranch => code == CheckoutFailed
       case CheckoutDestination => code == ApplyFailed
       case _ => false
  }

  ghost predicate Named(r: Run) { r.thrown.Some? && !r.rejected ==> CodeFits(r.thrown.value, r.w.row.step) }

  lemma SaveIsNamed(r: Run, step: Step, change: Change)
    requires Named(r)
    ensures Named(Save(r, step, change))
  {
  }

  lemma PortIsNamed(r: Run)
    requires Named(r)
    ensures Named(Port(r))
  {
  }

  lemma AdmitIsNamed(r: Run, created: bool)
    requires Named(r)
    ensures Named(Admit(r, created))
  {
    hide Named, Port, Save;
    forall r': Run | Named(r') ensures Named(Port(r')) { PortIsNamed(r'); }
    forall r': Run, step: Step, change: Change | Named(r') ensures Named(Save(r', step, change)) { SaveIsNamed(r', step, change); }
  }

  lemma {:induction false} WarningsAreNamed(r: Run, warnings: seq<string>)
    requires Named(r)
    ensures Named(SaveWarnings(r, warnings))
    decreases |warnings|
  {
    hide Save;
    if warnings != [] {
      var change := NO_CHANGE.(warning := Some(warnings[0]));
      SaveIsNamed(r, ApplySourceChanges, change);
      WarningsAreNamed(Save(r, ApplySourceChanges, change), warnings[1..]);
    }
  }

  lemma HandOverIsNamed(r: Run, thread: string)
    requires Named(r)
    ensures Named(HandOver(r, thread))
  {
    hide Named, Port, Save, SaveWarnings;
    WarningsAreNamed(r, r.warnings);
    forall r': Run | Named(r') ensures Named(Port(r')) { PortIsNamed(r'); }
    forall r': Run, step: Step, change: Change | Named(r') ensures Named(Save(r', step, change)) { SaveIsNamed(r', step, change); }
  }

  lemma CaptureIsNamed(w: World, side: Side, marker: Marker)
    ensures Capture(w, side, marker).1.Thrown? ==> Capture(w, side, marker).1.code in {NotGit, StashFailed}
    ensures Capture(w, side, marker).0.row == w.row
  {
  }

  lemma CapturesAreNamed(plan: Plan, r: Run)
    requires Named(r)
    ensures r.live ==> r.w.row.step == PrepareDestination ==> Named(CaptureSourceStage(r))
    ensures !r.live ==> CaptureSourceStage(r) == r
    ensures (r.live ==> r.w.row.step == CaptureSource) ==> Named(CaptureDestinationStage(plan, r))
  {
    hide Capture, Save;
    CaptureIsNamed(r.w, Source, MarkerOf(r.journal.sourceStashMarker));
    CaptureIsNamed(r.w, Destination, MarkerOf(r.journal.destinationStashMarker));
    forall r': Run, step: Step, change: Change | Named(r') ensures Named(Save(r', step, change)) { SaveIsNamed(r', step, change); }
  }

  lemma CheckoutsAreNamed(plan: Plan, r: Run)
    requires Named(r)
    ensures (r.live ==> r.w.row.step == CaptureSource && (plan.direction.LocalToWorktree? ==> plan.fallbackBranch.Some?)) ==> Named(ReleaseStage(plan, r))
    ensures (r.live ==> r.w.row.step == ReleaseBranch) ==> Named(AcquireStage(plan, r))
  {
    hide Save;
    forall r': Run, step: Step, change: Change | Named(r') ensures Named(Save(r', step, change)) { SaveIsNamed(r', step, change); }
  }

  lemma AppliesAreNamed(r: Run)
    requires Named(r)
    ensures (r.live ==> r.w.row.step == CheckoutDestination) ==> Named(ApplySourceStage(r))
    ensures Named(ApplyDestinationStage(r)) && Named(LastStage(r))
  {
    hide Save;
    forall r': Run, step: Step, change: Change | Named(r') ensures Named(Save(r', step, change)) { SaveIsNamed(r', step, change); }
  }

  lemma TransferIsNamed(o: Origin, r: Run)
    requires Begins(o) && Prepared(o, r)
    ensures Named(Transfer(o.plan, r))
  {
    hide CaptureSourceStage, CaptureDestinationStage, ReleaseStage, AcquireStage, ApplySourceStage, ApplyDestinationStage, LastStage;
    CaptureSourceSafe(o, r);
    CapturesAreNamed(o.plan, r);
    var r1 := CaptureSourceStage(r);
    CaptureDestinationSafe(o, r1);
    CapturesAreNamed(o.plan, r1);
    var r2 := CaptureDestinationStage(o.plan, r1);
    ReleaseSafe(o, r2);
    CheckoutsAreNamed(o.plan, r2);
    var r3 := ReleaseStage(o.plan, r2);
    AcquireSafe(o, r3);
    CheckoutsAreNamed(o.plan, r3);
    var r4 := AcquireStage(o.plan, r3);
    AppliesAreNamed(r4);
    var r5 := ApplySourceStage(r4);
    AppliesAreNamed(r5);
    AppliesAreNamed(ApplyDestinationStage(r5));
  }

  lemma BodyIsNamed(w: World, input: Input)
    requires Fresh(w, input)
    ensures Named(StartBody(w, input).run)
  {
    hide Admit, Transfer, HandOver, Inspect;
    var start := Run(w, EMPTY_JOURNAL, [], None, false);
    AdmitIsNamed(start, input.createdForOperation);
    AdmitKeeps(start, input.createdForOperation);
    var admitted := Admit(start, input.createdForOperation);
    InspectNamesObstacle(admitted.w, input);
    InspectFits(admitted.w, input.direction, input.defaultBranch);
    var (w1, inspected) := Inspect(admitted.w, input.direction, input.defaultBranch);
    if admitted.live && inspected.Ok? {
      var o := Origin(inspected.value, w.repo, input.markerId);
      CheckpointPrepares(o, admitted.(w := w1));
      var ready := CheckpointJournal(admitted.(w := w1), CreateJournal(o.plan, o.id));
      if ready.live {
        TransferIsNamed(o, ready);
        HandOverIsNamed(Transfer(o.plan, ready), input.forkedThread);
      }
    }
  }

  // ----- undoing a start -----

  /** What undoing a failed start comes to: the fork's removal, the rollback if Git may have been touched, and the release
      of what was prepared are all attempted, in this order, whatever fails; the failure is recorded if that is possible,
      and it counts as undone only if all three were done. */
  lemma UnwindRecords(b: Body)
    requires !b.run.live && b.run.w.row.status.Running?
    ensures var s := Unwind(b);
            var (e, removed) := Attempt(b.run.w.env);
            var undoing := if b.transferred.Some? then b.transferred.value else b.run.w.row.journal;
            && (b.plan.None? ==> s.report == None)
            && (b.plan.Some? ==> s.report == Some(Rollback(b.plan.value, b.run.w.(env := e), undoing)))
            && var (e1, released) := Attempt(if s.report.Some? then s.report.value.w.env else e);
            var (e2, recorded) := Attempt(e1);
            var undone := removed && released && (s.report.Some? ==> s.report.value.ok);
            && s.w.env == e2
            && s.w.repo == (if s.report.Some? then s.report.value.w.repo else b.run.w.repo)
            && s.w.row == if !recorded then b.run.w.row
                          else b.run.w.row.(status := if undone then Failed else RollbackFailed, revision := b.run.w.row.revision + 1,
                                            error := Some(if undone then Recorded(b.run.thrown) else RollbackIncomplete))
  {
    hide Rollback;
    if b.plan.Some? {
      var (w1, _) := Query(b.run.w);
      RollbackDropsNothing(b.plan.value, w1, if b.transferred.Some? then b.transferred.value else w1.row.journal);
    }
  }

  /** A start that fails says why: an undone one with a code that belongs to the step it had got to, any other as a
      rollback that is not complete. */
  lemma FailureIsNamed(w: World, input: Input)
    requires Fresh(w, input) && !StartOwned(w, input).returned
    ensures var row := StartOwned(w, input).w.row;
            && (row.status.Failed? ==> row.error.Some? && CodeFits(row.error.value, row.step))
            && (row.status.RollbackFailed? ==> row.error == Some(RollbackIncomplete))
            && (row.status.Running? ==> row.error == StartBody(w, input).run.w.row.error)
  {
    hide StartBody, Unwind;
    BodyIsSafe(w, input);
    BodyIsNamed(w, input);
    UnwindRecords(StartBody(w, input));
  }

  /** An undisturbed start that the repository does not allow fails with the obstacle and leaves both worktrees alone. */
  lemma UndisturbedFailureNamesObstacle(w: World, input: Input)
    requires Fresh(w, input) && Calm(w.env) && !Startable(w.repo, input)
    ensures var s := StartOwned(w, input);
            && s.w.row.status.Failed? && s.w.repo.source == w.repo.source && s.w.repo.destination == w.repo.destination
            && s.w.row.error == if Obstacle(w.repo, input).Some? then Obstacle(w.repo, input) else Some(CheckoutFailed)
  {
    hide StartBody, Unwind;
    var s, b := StartOwned(w, input), StartBody(w, input);
    BodyIsSafe(w, input);
    BodySucceedsExactlyWhen(w, input);
    StartUnderCrashes(w, input, true);
    UnwindRecords(b);
  }

  /** What recovering an operation at startup comes to: it is recorded as failed if the worktrees were found, the rollback
      that its journal asks for succeeded, the fork was removed and what was prepared was released, each attempted only
      after the one before; otherwise as not rolled back. */
  lemma RecoverRecords(w: World, direction: Direction)
    requires w.row.status.Running?
    ensures var v := Recover(w, direction);
            var (e, found) := Attempt(w.env);
            var plan := PlanOf(direction, w.row.journal);
            var report := if w.row.journal.sourceHead.Some? && plan.Some? then Some(Rollback(plan.value, w.(env := e), w.row.journal)) else None;
            var reported := w.row.journal.sourceHead.Some? ==> report.Some? && report.value.ok;
            var (e1, removed) := if found then Attempt(if report.Some? then report.value.w.env else e) else (e, false);
            var (e2, released) := if removed then Attempt(e1) else (e1, false);
            var (e3, recorded) := Attempt(e2);
            && v.env == e3
            && v.repo == (if found && report.Some? then report.value.w.repo else w.repo)
            && v.row == if !recorded then w.row
                        else w.row.(status := if released && reported then Failed else RollbackFailed, revision := w.row.revision + 1,
                                    error := Some(if released && reported then HandoffInProgress else RollbackIncomplete))
  {
    hide Rollback;
    var plan := PlanOf(direction, w.row.journal);
    if plan.Some? { RollbackDropsNothing(plan.value, w.(env := Attempt(w.env).0), w.row.journal); }
  }

  // ----- what is called before and after the Git commands -----

  ghost predicate Goes(r: Run, n: nat) { r.live && Granted(r.w.env, n) }

  lemma PortTakesOne(r: Run, n: nat)
    ensures Goes(r, n + 1) <==> Goes(Port(r), n)
    ensures Port(r).w.row == r.w.row && (r.live ==> Port(r).journal == r.journal) && (Port(r).live ==> r.live)
  {
  }

  lemma SaveTakesOne(r: Run, step: Step, change: Change, n: nat)
    requires r.live ==> r.w.row.status.Running? && StepIndex(step) - StepIndex(r.w.row.step) in {0, 1}
    ensures var r' := Save(r, step, change);
            && (Goes(r, n + 1) <==> Goes(r', n)) && (r'.live ==> r.live)
            && (r'.live ==> r'.w.row.step == step && r'.w.row.status == (if step.AwaitClientTransfer? then AwaitingClient else Running))
  {
  }

  /** Before Git is looked at, a start makes five calls to others and records two steps, or three if the destination was
      created for it: it gets so far exactly when all of them succeed. */
  lemma AdmittedExactlyWhen(r: Run, created: bool)
    requires r.live && r.w.row.status.Running? && r.w.row.step == Preflight
    ensures Admit(r, created).live <==> Granted(r.w.env, if created then 8 else 7)
  {
    hide Port, Save, Granted;
    var n := if created then 1 else 0;
    var r1 := Port(r);
    PortTakesOne(r, n + 6);
    var r2 := Mark(r1, StopSource);
    SaveTakesOne(r1, StopSource, NO_CHANGE, n + 5);
    var r3 := Port(r2);
    PortTakesOne(r2, n + 4);
    var r4 := Port(r3);
    PortTakesOne(r3, n + 3);
    var r5 := Port(r4);
    PortTakesOne(r4, n + 2);
    var r6 := Mark(r5, PrepareDestination);
    SaveTakesOne(r5, PrepareDestination, NO_CHANGE, n + 1);
    var r7 := Port(r6);
    PortTakesOne(r6, n);
    SaveTakesOne(r7, PrepareDestination, NO_CHANGE.(journal := EMPTY_JOURNAL.(destinationCreated := true)), 0);
    NothingLeft(Admit(r, created));
  }

  lemma NothingLeft(r: Run)
    ensures Goes(r, 0) <==> r.live
  {
  }

  lemma {:induction false} WarningsTake(r: Run, warnings: seq<string>, n: nat)
    requires r.live ==> r.w.row.status.Running? && r.w.row.step == ApplySourceChanges
    ensures var r' := SaveWarnings(r, warnings);
            && (Goes(r, |warnings| + n) <==> Goes(r', n)) && (r'.live ==> r'.w.row.status.Running? && r'.w.row.step == ApplySourceChanges)
    decreases |warnings|
  {
    hide Save, Goes;
    if warnings != [] {
      var change := NO_CHANGE.(warning := Some(warnings[0]));
      SaveTakesOne(r, ApplySourceChanges, change, |warnings| - 1 + n);
      WarningsTake(Save(r, ApplySourceChanges, change), warnings[1..], n);
    }
  }

  /** After the transfer it records each warning, forks, binds the fork to its workspace and records three steps; it
      returns exactly when all of that succeeds. */
  lemma HandedOverExactlyWhen(r: Run, thread: string)
    requires r.live && r.w.row.status.Running? && r.w.row.step == ApplySourceChanges
    ensures HandOver(r, thread).live <==> Granted(r.w.env, |r.warnings| + 5)
  {
    hide Port, Save, Granted, SaveWarnings;
    WarningsTake(r, r.warnings, 5);
    var r1 := SaveWarnings(r, r.warnings);
    SaveTakesOne(r1, ForkConversation, NO_CHANGE, 4);
    var r2 := Mark(r1, ForkConversation);
    PortTakesOne(r2, 3);
    var r3 := Port(r2);
    SaveTakesOne(r3, TransferCoreState, NO_CHANGE.(targetThread := Some(thread)), 2);
    var r4 := Save(r3, TransferCoreState, NO_CHANGE.(targetThread := Some(thread)));
    PortTakesOne(r4, 1);
    SaveTakesOne(Port(r4), AwaitClientTransfer, NO_CHANGE, 0);
    NothingLeft(HandOver(r, thread));
  }

  // ----- warnings -----

  /** Work of the destination that cannot be put back on top is no reason to stop: it stays in its stash, and a warning is
      added. */
  lemma RefusedReapplicationIsAWarning(o: Origin, r: Run)
    requires Begins(o) && AfterApplySource(o, r) && r.live && r.journal.destinationStashRef.Some?
    requires !Attempt(r.w.env).1 && Attempt(Attempt(r.w.env).0).1
    ensures var r' := ApplyDestinationStage(r);
            && r'.live && r'.warnings == r.warnings + [NOT_RESTORED] && r'.w.repo == r.w.repo && !r'.journal.destinationStashApplied
  {
    ApplyDestinationSafe(o, r);
    hide AdvanceRow;
  }

  lemma ReapplicationWarns(r: Run)
    ensures var r' := ApplyDestinationStage(r);
            r'.live ==> r.live && (!r.journal.destinationStashApplied ==>
              && r'.journal.destinationStashRef == r.journal.destinationStashRef
              && r'.warnings == r.warnings + if r.journal.destinationStashRef.Some? && !r'.journal.destinationStashApplied then [NOT_RESTORED] else [])
  {
  }

  lemma TransferWarns(o: Origin, r: Run)
    requires Begins(o) && Prepared(o, r) && r.warnings == []
    ensures var r' := Transfer(o.plan, r);
            r'.live ==> r'.warnings == if r'.journal.destinationStashRef.Some? && !r'.journal.destinationStashApplied then [NOT_RESTORED] else []
  {
    hide CaptureSourceStage, CaptureDestinationStage, ReleaseStage, AcquireStage, ApplySourceStage, ApplyDestinationStage, LastStage;
    hide SourceCaptured, DestinationCaptured, Recoverable, Guides, Begins;
    WarningsUntouched(o.plan, r);
    CaptureSourceSafe(o, r);
    var r1 := CaptureSourceStage(r);
    CaptureDestinationSafe(o, r1);
    var r2 := CaptureDestinationStage(o.plan, r1);
    ReleaseSafe(o, r2);
    var r3 := ReleaseStage(o.plan, r2);
    AcquireSafe(o, r3);
    LaterWarnings(o.plan, r3);
    var r4 := AcquireStage(o.plan, r3);
    ApplySourceSafe(o, r4);
    ReapplicationWarns(ApplySourceStage(r4));
    LastWarnsNothing(ApplyDestinationStage(ApplySourceStage(r4)));
  }

  lemma LastWarnsNothing(r: Run)
    ensures LastStage(r).live ==> r.live && LastStage(r).warnings == r.warnings && LastStage(r).journal == r.journal
  {
  }

  lemma {:induction false} WarningsAreRecorded(r: Run, warnings: seq<string>)
    requires r.live ==> r.w.row.status.Running?
    requires |warnings| <= 1 && forall w <- warnings :: w !in r.w.row.warnings
    ensures SaveWarnings(r, warnings).live ==> SaveWarnings(r, warnings).w.row.warnings == r.w.row.warnings + warnings
  {
    assert r.w.row.warnings + [] == r.w.row.warnings;
    if warnings != [] { assert warnings == [warnings[0]] && warnings[1..] == []; }
  }

  lemma HandOverWarns(o: Origin, r: Run, thread: string)
    requires Done(o, r) && r.live && |r.warnings| <= 1 && r.w.row.warnings == []
    ensures HandOver(r, thread).live ==> HandOver(r, thread).w.row.warnings == r.warnings
  {
    hide SaveWarnings, Port, Save, Delivered;
    WarningsAreRecorded(r, r.warnings);
    assert [] + r.warnings == r.warnings;
    var r1 := SaveWarnings(r, r.warnings);
    ChangeRecordsNoWarning(r1, ForkConversation, NO_CHANGE);
    var r2 := Mark(r1, ForkConversation);
    PortTakesOne(r2, 0);
    var change := NO_CHANGE.(targetThread := Some(thread));
    ChangeRecordsNoWarning(Port(r2), TransferCoreState, change);
    var r3 := Save(Port(r2), TransferCoreState, change);
    PortTakesOne(r3, 0);
    ChangeRecordsNoWarning(Port(r3), AwaitClientTransfer, NO_CHANGE);
  }

  lemma CapturesRecordNoWarning(plan: Plan, r: Run)
    ensures CaptureSourceStage(r).w.row.warnings == r.w.row.warnings && CaptureDestinationStage(plan, r).w.row.warnings == r.w.row.warnings
  {
    hide OnStep, Capture;
    forall r': Run, step: Step ensures OnStep(r', step).w.row.warnings == r'.w.row.warnings { StepRecordsNoWarning(r', step); }
    CaptureIsNamed(r.w, Source, MarkerOf(r.journal.sourceStashMarker));
    CaptureIsNamed(r.w, Destination, MarkerOf(r.journal.destinationStashMarker));
  }

  lemma CheckoutsRecordNoWarning(plan: Plan, r: Run)
    ensures ReleaseStage(plan, r).w.row.warnings == r.w.row.warnings && AcquireStage(plan, r).w.row.warnings == r.w.row.warnings
  {
    hide OnStep;
    forall r': Run, step: Step ensures OnStep(r', step).w.row.warnings == r'.w.row.warnings { StepRecordsNoWarning(r', step); }
  }

  lemma AppliesRecordNoWarning(r: Run)
    ensures ApplySourceStage(r).w.row.warnings == r.w.row.warnings && ApplyDestinationStage(r).w.row.warnings == r.w.row.warnings
    ensures LastStage(r).w.row.warnings == r.w.row.warnings
  {
    hide OnStep;
    forall r': Run, step: Step ensures OnStep(r', step).w.row.warnings == r'.w.row.warnings { StepRecordsNoWarning(r', step); }
  }

  lemma TransferRecordsNoWarning(plan: Plan, r: Run)
    ensures Transfer(plan, r).w.row.warnings == r.w.row.warnings
  {
    hide CaptureSourceStage, CaptureDestinationStage, ReleaseStage, AcquireStage, ApplySourceStage, ApplyDestinationStage, LastStage;
    CapturesRecordNoWarning(plan, r);
    var r1 := CaptureSourceStage(r);
    CapturesRecordNoWarning(plan, r1);
    var r2 := CaptureDestinationStage(plan, r1);
    CheckoutsRecordNoWarning(plan, r2);
    var r3 := ReleaseStage(plan, r2);
    CheckoutsRecordNoWarning(plan, r3);
    var r4 := AcquireStage(plan, r3);
    AppliesRecordNoWarning(r4);
    var r5 := ApplySourceStage(r4);
    AppliesRecordNoWarning(r5);
    AppliesRecordNoWarning(ApplyDestinationStage(r5));
  }

  lemma StepRecordsNoWarning(r: Run, step: Step)
    ensures OnStep(r, step).w.row.warnings == r.w.row.warnings
  {
  }

  lemma MoveGitWarns(o: Origin, ready: Run, thread: string)
    requires Begins(o) && Prepared(o, ready) && ready.live && ready.warnings == [] && ready.w.row.warnings == []
    ensures var r := MoveGit(ready, o.plan, thread).run;
            r.live ==> r.w.row.warnings == if r.journal.destinationStashRef.Some? && !r.journal.destinationStashApplied then [NOT_RESTORED] else []
    ensures var r := MoveGit(ready, o.plan, thread).run;
            r.live && o.repo.destination.changes != [] ==> r.journal.destinationStashRef.Some?
  {
    hide Transfer, HandOver;
    TransferIsRecoverable(o, ready);
    TransferWarns(o, ready);
    TransferRecordsNoWarning(o.plan, ready);
    var moved := Transfer(o.plan, ready);
    if moved.live {
      HandOverIsAccepted(o, moved, thread);
      HandOverWarns(o, moved, thread);
    }
  }

  lemma AdmitRecordsNoWarning(r: Run, created: bool)
    ensures Admit(r, created).w.row.warnings == r.w.row.warnings
  {
    hide Port, Save;
    forall r': Run ensures Port(r').w.row == r'.w.row { PortTakesOne(r', 0); }
    forall r': Run, step: Step, change: Change | change.warning.None? ensures Save(r', step, change).w.row.warnings == r'.w.row.warnings {
      ChangeRecordsNoWarning(r', step, change);
    }
  }

  lemma ChangeRecordsNoWarning(r: Run, step: Step, change: Change)
    requires change.warning.None?
    ensures Save(r, step, change).w.row.warnings == r.w.row.warnings && (Save(r, step, change).live ==> r.live)
  {
  }

  lemma BodyWarns(w: World, input: Input)
    requires Fresh(w, input) && w.row.warnings == [] && StartBody(w, input).run.live
    ensures var r := StartBody(w, input).run;
            && r.w.row.warnings == (if r.journal.destinationStashRef.Some? && !r.journal.destinationStashApplied then [NOT_RESTORED] else [])
            && (w.repo.destination.changes != [] ==> r.journal.destinationStashRef.Some?)
  {
    hide Admit, Inspect, MoveGit;
    var start := Run(w, EMPTY_JOURNAL, [], None, false);
    AdmitKeeps(start, input.createdForOperation);
    AdmitRecordsNoWarning(start, input.createdForOperation);
    var admitted := Admit(start, input.createdForOperation);
    InspectFits(admitted.w, input.direction, input.defaultBranch);
    var (w1, inspected) := Inspect(admitted.w, input.direction, input.defaultBranch);
    var o := Origin(inspected.value, w.repo, input.markerId);
    CheckpointPrepares(o, admitted.(w := w1));
    var ready := CheckpointJournal(admitted.(w := w1), CreateJournal(o.plan, o.id));
    if ready.live { MoveGitWarns(o, ready, input.forkedThread); } else { DeadMovesNothing(ready, o.plan, input.forkedThread); }
  }

  /** A start that returns warns exactly if work of the destination is left in its stash; work that the destination had is
      in such a stash. */
  lemma ReturnedStartWarns(w: World, input: Input)
    requires Fresh(w, input) && w.row.warnings == [] && StartOwned(w, input).returned
    ensures var row := StartOwned(w, input).w.row;
            && row.warnings == (if row.journal.destinationStashRef.Some? && !row.journal.destinationStashApplied then [NOT_RESTORED] else [])
            && (w.repo.destination.changes != [] ==> row.journal.destinationStashRef.Some?)
  {
    hide StartBody, Recoverable, Delivered, Begins;
    BodyIsSafe(w, input);
    BodyWarns(w, input);
  }

  lemma DeadMovesNothing(r: Run, plan: Plan, thread: string)
    requires !r.live
    ensures MoveGit(r, plan, thread).run == r
  {
  }
}
