/** Handoffs whose only mishap is the death of the process, any number of times. */
module HandoffCrashes {
  import opened Options
  import opened Faults
  import opened Git
  import opened HandoffRepository
  import opened GitHandoffCoordinator
  import opened HandoffRecovery
  import opened HandoffTransfer
  import opened HandoffService
  import opened HandoffSafety

  // ----- a benign environment stays benign -----

  lemma SaveBenign(r: Run, step: Step, change: Change, calm: bool)
    requires Benign(r.w.env, calm)
    ensures Benign(Save(r, step, change).w.env, calm)
  {
    BenignAttempt(r.w.env, calm);
  }

  lemma RequiredBenign(r: Run, effect: Option<Repo>, code: ErrorCode, calm: bool)
    requires Benign(r.w.env, calm)
    ensures Benign(Required(r, effect, code).w.env, calm)
  {
    BenignMutate(r.w, effect, calm);
  }

  lemma CaptureBenign(w: World, side: Side, marker: Marker, calm: bool)
    requires Benign(w.env, calm)
    ensures Benign(Capture(w, side, marker).0.env, calm)
  {
    var (w1, _) := Query(w);
    BenignAttempt(w.env, calm);
    var (w2, _) := Query(w1);
    BenignAttempt(w1.env, calm);
    var (w3, _) := Mutate(w2, Some(w2.repo.Push(side, marker)));
    BenignMutate(w2, Some(w2.repo.Push(side, marker)), calm);
    BenignAttempt(w3.env, calm);
  }

  lemma CapturesBenign(plan: Plan, r: Run, calm: bool)
    requires Benign(r.w.env, calm)
    ensures Benign(CaptureSourceStage(r).w.env, calm) && Benign(CaptureDestinationStage(plan, r).w.env, calm)
  {
    CaptureBenign(r.w, Source, MarkerOf(r.journal.sourceStashMarker), calm);
    CaptureBenign(r.w, Destination, MarkerOf(r.journal.destinationStashMarker), calm);
    forall r': Run | Benign(r'.w.env, calm) ensures Benign(OnStep(r', CaptureSource).w.env, calm) {
      SaveBenign(r', CaptureSource, NO_CHANGE.(journal := r'.journal), calm);
    }
  }

  lemma CheckoutsBenign(plan: Plan, r: Run, calm: bool)
    requires Benign(r.w.env, calm)
    ensures Benign(ReleaseStage(plan, r).w.env, calm) && Benign(AcquireStage(plan, r).w.env, calm)
  {
    forall effect: Option<Repo>, code: ErrorCode ensures Benign(Required(r, effect, code).w.env, calm) { RequiredBenign(r, effect, code, calm); }
    forall r': Run, step: Step | Benign(r'.w.env, calm) ensures Benign(OnStep(r', step).w.env, calm) {
      SaveBenign(r', step, NO_CHANGE.(journal := r'.journal), calm);
    }
  }

  lemma AppliesBenign(r: Run, calm: bool)
    requires Benign(r.w.env, calm)
    ensures Benign(ApplySourceStage(r).w.env, calm) && Benign(ApplyDestinationStage(r).w.env, calm) && Benign(LastStage(r).w.env, calm)
  {
    hide Save;
    forall r': Run, step: Step | Benign(r'.w.env, calm) ensures Benign(OnStep(r', step).w.env, calm) {
      SaveBenign(r', step, NO_CHANGE.(journal := r'.journal), calm);
    }
    if r.journal.sourceStashRef.Some? {
      RequiredBenign(r, r.w.repo.Apply(Destination, r.journal.sourceStashRef.value), ApplyFailed, calm);
    }
    if r.journal.destinationStashRef.Some? {
      BenignMutate(r.w, r.w.repo.Apply(Destination, r.journal.destinationStashRef.value), calm);
    }
  }

  lemma TransferBenign(plan: Plan, r: Run, calm: bool)
    requires Benign(r.w.env, calm)
    ensures Benign(Transfer(plan, r).w.env, calm)
  {
    var r1 := CaptureSourceStage(r);
    CapturesBenign(plan, r, calm);
    var r2 := CaptureDestinationStage(plan, r1);
    CapturesBenign(plan, r1, calm);
    var r3 := ReleaseStage(plan, r2);
    CheckoutsBenign(plan, r2, calm);
    var r4 := AcquireStage(plan, r3);
    CheckoutsBenign(plan, r3, calm);
    var r5 := ApplySourceStage(r4);
    AppliesBenign(r4, calm);
    var r6 := ApplyDestinationStage(r5);
    AppliesBenign(r5, calm);
    AppliesBenign(r6, calm);
  }

  lemma PortBenign(r: Run, calm: bool)
    requires Benign(r.w.env, calm)
    ensures Benign(Port(r).w.env, calm)
  {
    BenignAttempt(r.w.env, calm);
  }

  lemma AdmitBenign(r: Run, created: bool, calm: bool)
    requires Benign(r.w.env, calm)
    ensures Benign(Admit(r, created).w.env, calm)
  {
    forall r': Run | Benign(r'.w.env, calm) ensures Benign(Port(r').w.env, calm) { PortBenign(r', calm); }
    forall r': Run, step: Step, change: Change | Benign(r'.w.env, calm) ensures Benign(Save(r', step, change).w.env, calm) {
      SaveBenign(r', step, change, calm);
    }
  }

  lemma {:induction false} WarningsBenign(r: Run, warnings: seq<string>, calm: bool)
    requires Benign(r.w.env, calm)
    ensures Benign(SaveWarnings(r, warnings).w.env, calm)
    decreases |warnings|
  {
    if warnings != [] {
      var change := NO_CHANGE.(warning := Some(warnings[0]));
      SaveBenign(r, ApplySourceChanges, change, calm);
      WarningsBenign(Save(r, ApplySourceChanges, change), warnings[1..], calm);
    }
  }

  lemma HandOverBenign(r: Run, thread: string, calm: bool)
    requires Benign(r.w.env, calm)
    ensures Benign(HandOver(r, thread).w.env, calm)
  {
    WarningsBenign(r, r.warnings, calm);
    forall r': Run | Benign(r'.w.env, calm) ensures Benign(Port(r').w.env, calm) { PortBenign(r', calm); }
    forall r': Run, step: Step, change: Change | Benign(r'.w.env, calm) ensures Benign(Save(r', step, change).w.env, calm) {
      SaveBenign(r', step, change, calm);
    }
  }

  lemma BodyBenign(w: World, input: Input, calm: bool)
    requires Benign(w.env, calm)
    ensures Benign(StartBody(w, input).run.w.env, calm)
  {
    var start := Run(w, EMPTY_JOURNAL, [], None, false);
    AdmitBenign(start, input.createdForOperation, calm);
    var admitted := Admit(start, input.createdForOperation);
    BenignAttempt(admitted.w.env, calm);
    var (w1, inspected) := Inspect(admitted.w, input.direction, input.defaultBranch);
    assert Benign(w1.env, calm);
    if admitted.live && inspected.Ok? {
      BenignAttempt(w1.env, calm);
      MoveGitBenign(CheckpointJournal(admitted.(w := w1), CreateJournal(inspected.value, input.markerId)), inspected.value, input.forkedThread, calm);
    }
  }

  lemma MoveGitBenign(ready: Run, plan: Plan, thread: string, calm: bool)
    requires Benign(ready.w.env, calm)
    ensures Benign(MoveGit(ready, plan, thread).run.w.env, calm)
  {
    TransferBenign(plan, ready, calm);
    HandOverBenign(Transfer(plan, ready), thread, calm);
  }

  // ----- the operation over any number of crashes -----

  /** Where an operation stands between two lives of the process. */
  ghost predicate Standing(base: Repo, o: Option<Origin>, w: World) {
    && !w.row.status.RollbackFailed?
    && (w.row.status.Running? ==> Undoable(base, o, w))
    && (w.row.status.Failed? ==> w.repo.source == base.source && w.repo.destination == base.destination)
  }

  lemma UnwindGitUnderCrashes(base: Repo, input: Input, b: Body, w: World, calm: bool)
    requires BodySafe(base, input, b) && !b.run.live && Benign(w.env, calm)
    requires w.repo == b.run.w.repo && w.row == b.run.w.row
    ensures var report := UnwindGit(b, w);
            report.Some? ==> report == UnwindGit(b, w) && OkUnlessCrashed(report.value, calm) && Trusted(report.value)
                             && report.value.w.row == w.row && (w.env.crashed ==> report.value.w.env.crashed)
  {
    var o := OriginOf(base, input, b.plan);
    if o.Some? {
      var j := if b.transferred.Some? then b.transferred.value else w.row.journal;
      BenignRollback(o.value, w, j, calm);
      RollbackRestores(o.value, w, j);
    }
  }

  lemma UnwindUnderCrashes(base: Repo, input: Input, b: Body, calm: bool)
    requires BodySafe(base, input, b) && !b.run.live && Benign(b.run.w.env, calm)
    ensures var s := Unwind(b);
            Standing(base, OriginOf(base, input, b.plan), s.w) && Benign(s.w.env, calm) && (!s.w.env.crashed ==> s.w.row.status.Failed?)
  {
    UnwindIsSafe(base, input, b);
    var (w1, forkGone) := Query(b.run.w);
    BenignAttempt(b.run.w.env, calm);
    UnwindGitUnderCrashes(base, input, b, w1, calm);
    UnwindRestUnderCrashes(b, w1, forkGone, UnwindGit(b, w1), calm);
    StartSafeStands(base, input, Unwind(b));
  }

  lemma StartSafeStands(base: Repo, input: Input, s: Started)
    requires StartSafe(base, input, s) && !s.w.row.status.RollbackFailed? && (s.report.None? || Trusted(s.report.value))
    ensures Standing(base, OriginOf(base, input, s.plan), s.w)
  {
  }

  lemma UnwindRestUnderCrashes(b: Body, w: World, forkGone: bool, report: Option<Report>, calm: bool)
    requires b.run.w.row.status.Running? && w.row == b.run.w.row && Benign(w.env, calm) && (forkGone || w.env.crashed)
    requires report.Some? ==> OkUnlessCrashed(report.value, calm) && report.value.w.row == w.row && (w.env.crashed ==> report.value.w.env.crashed)
    ensures var s := UnwindRest(b, w, forkGone, report);
            && Benign(s.w.env, calm)
            && (if s.w.env.crashed then s.w.row == w.row else s.w.row.status.Failed?)
  {
    var w' := if report.Some? then report.value.w else w;
    BenignAttempt(w'.env, calm);
    var (w1, _) := Query(w');
    BenignAttempt(w1.env, calm);
  }

  lemma StartUnderCrashes(w: World, input: Input, calm: bool)
    requires Fresh(w, input) && Benign(w.env, calm)
    ensures var s := StartOwned(w, input);
            Standing(w.repo, OriginOf(w.repo, input, s.plan), s.w) && Benign(s.w.env, calm) && (!s.w.env.crashed ==> !s.w.row.status.Running?)
  {
    BodyIsSafe(w, input);
    BodyBenign(w, input, calm);
    var b := StartBody(w, input);
    if !b.run.live { UnwindUnderCrashes(w.repo, input, b, calm); }
  }

  /** The plan rebuilt from the journal rolls back exactly as the original plan does. */
  lemma JournalPlanSuffices(o: Origin, w: World, direction: Direction)
    requires Guides(w.row.journal, o, w.repo)
    ensures PlanOf(direction, w.row.journal).Some?
    ensures Rollback(PlanOf(direction, w.row.journal).value, w, w.row.journal) == Rollback(o.plan, w, w.row.journal)
  {
    var p := PlanOf(direction, w.row.journal).value;
    assert forall x: World :: AtOriginalDestination(x, p) == AtOriginalDestination(x, o.plan);
    assert forall x: World :: ClearDestination(x, p) == ClearDestination(x, o.plan);
  }

  lemma RecoverGitUnderCrashes(base: Repo, o: Option<Origin>, w: World, direction: Direction, calm: bool)
    requires Undoable(base, o, w) && w.row.status.Running? && Benign(w.env, calm)
    ensures var (w', ok) := RecoverGit(w, direction);
            && Benign(w'.env, calm) && w'.row == w.row && Undoable(base, o, w')
            && (w.env.crashed ==> w'.env.crashed)
            && (!w'.env.crashed ==> ok && w'.repo.source == base.source && w'.repo.destination == base.destination)
  {
    if o.Some? {
      JournalPlanSuffices(o.value, w, direction);
      BenignRollback(o.value, w, w.row.journal, calm);
      RollbackRestores(o.value, w, w.row.journal);
      SameStashesSameGuide(w.row.journal, o.value, w.repo, Rollback(o.value.plan, w, w.row.journal).w.repo);
    }
  }

  lemma RecoverUnderCrashes(base: Repo, o: Option<Origin>, w: World, direction: Direction, calm: bool)
    requires Standing(base, o, w) && Benign(w.env, calm)
    ensures var w' := Recover(w, direction);
            && Standing(base, o, w') && Benign(w'.env, calm)
            && (w'.row.status.Running? ==> w'.env.crashed)
            && (!w.row.status.Running? ==> w' == w)
            && (w.row.status.Running? && !w'.row.status.Running? ==> w'.row.status.Failed?)
  {
    if w.row.status.Running? {
      BenignAttempt(w.env, calm);
      var (w1, _) := Query(w);
      RecoverGitUnderCrashes(base, o, w1, direction, calm);
      var (w2, ok) := RecoverGit(w1, direction);
      BenignAttempt(w2.env, calm);
      var (w3, _) := Query(w2);
      BenignAttempt(w3.env, calm);
      var (w4, _) := Query(w3);
      BenignAttempt(w4.env, calm);
    }
  }

  lemma {:induction false} RestartsStand(base: Repo, o: Option<Origin>, w: World, direction: Direction, n: nat)
    requires Standing(base, o, w) && CrashOnly(w.env) && (!w.env.crashed ==> !w.row.status.Running?)
    ensures var w' := Restarts(w, direction, n);
            Standing(base, o, w') && CrashOnly(w'.env) && (!w'.env.crashed ==> !w'.row.status.Running?)
  {
    hide Recover, Standing;
    if n > 0 {
      RestartsStand(base, o, w, direction, n - 1);
      RestartStands(base, o, Restarts(w, direction, n - 1), direction);
    }
  }

  lemma RestartStands(base: Repo, o: Option<Origin>, w: World, direction: Direction)
    requires Standing(base, o, w) && CrashOnly(w.env)
    ensures var v := Recover(w.(env := Restart(w.env)), direction);
            Standing(base, o, v) && CrashOnly(v.env) && (!v.env.crashed ==> !v.row.status.Running?)
  {
    RecoverUnderCrashes(base, o, w.(env := Restart(w.env)), direction, false);
  }

  /** Main result on crashes.  Let a handoff run, and let the process die wherever the script says, in
      the handoff and again in any of `n` recoveries: the operation always stands; and once one life of
      the process ends without dying, the operation is no longer running, and if it is not with the
      client then both worktrees are exactly as they were before the handoff. */
  lemma EveryCrashScheduleRestores(w: World, input: Input, n: nat)
    requires Fresh(w, input) && CrashOnly(w.env)
    ensures var s := StartOwned(w, input);
            var w' := Restarts(s.w, input.direction, n);
            && Standing(w.repo, OriginOf(w.repo, input, s.plan), w')
            && (!w'.env.crashed ==> !w'.row.status.Running? && !w'.row.status.RollbackFailed?)
            && (w'.row.status.Failed? ==> w'.repo.source == w.repo.source && w'.repo.destination == w.repo.destination)
  {
    var s := StartOwned(w, input);
    StartUnderCrashes(w, input, false);
    RestartsStand(w.repo, OriginOf(w.repo, input, s.plan), s.w, input.direction, n);
  }

  /** One undisturbed recovery is enough. */
  lemma UndisturbedRecoveryRestores(base: Repo, o: Option<Origin>, w: World, direction: Direction)
    requires Standing(base, o, w) && w.row.status.Running? && Calm(w.env)
    ensures var w' := Recover(w, direction);
            w'.row.status.Failed? && w'.repo.source == base.source && w'.repo.destination == base.destination
  {
    RecoverUnderCrashes(base, o, w, direction, true);
  }
}
