/** Every prefix of a transfer is recoverable, and a transfer that runs through delivers. */
module HandoffTransfer {
  import opened Options
  import opened Faults
  import opened Git
  import opened HandoffRepository
  import opened GitHandoffCoordinator
  import opened HandoffRecovery

  /** The durable journal knows no stash that the running transfer does not know. */
  ghost predicate Behind(durable: Journal, journal: Journal) {
    && (durable.sourceStashRef.Some? ==> durable.sourceStashRef == journal.sourceStashRef)
    && (durable.destinationStashRef.Some? ==> durable.destinationStashRef == journal.destinationStashRef)
    && (durable.destinationStashApplied ==> journal.destinationStashApplied)
  }

  /** Both journals would finalize the same stashes. */
  ghost predicate Agrees(durable: Journal, journal: Journal) {
    && durable.sourceStashRef == journal.sourceStashRef
    && durable.destinationStashRef == journal.destinationStashRef
    && durable.destinationStashApplied == journal.destinationStashApplied
  }

  /** What holds at every point of a transfer, whether or not it is still alive: a rollback can start
      from here, with the transfer's own journal or with the durable one, and no step was refused. */
  ghost predicate RunSafe(o: Origin, r: Run) {
    && (r.live ==> Agrees(r.w.row.journal, r.journal))
    && Recoverable(o, r.w.repo)
    && Guides(r.journal, o, r.w.repo) && Guides(r.w.row.journal, o, r.w.repo)
    && !r.rejected && r.w.row.status.Running?
    && (r.live ==> !r.w.env.crashed)
  }

  /** The journal knows a stash reference exactly when the stash exists; without one, that side was clean. */
  ghost predicate SourceCaptured(o: Origin, r: Run) {
    && r.w.repo.source.changes == []
    && (r.journal.sourceStashRef.Some? <==> SourceStash(o, r.w.repo).Some?)
    && (SourceStash(o, r.w.repo).None? ==> o.repo.source.changes == [])
  }

  ghost predicate DestinationCaptured(o: Origin, r: Run) {
    && (r.journal.destinationStashRef.Some? <==> DestinationStash(o, r.w.repo).Some?)
    && (DestinationStash(o, r.w.repo).None? ==> o.repo.destination.changes == [])
  }

  ghost predicate Prepared(o: Origin, r: Run) {
    RunSafe(o, r) && r.live && r.w.repo == o.repo && r.w.row.step == PrepareDestination
    && r.journal.sourceStashRef.None? && r.journal.destinationStashRef.None? && !r.journal.destinationStashApplied
  }

  ghost predicate AfterCaptureSource(o: Origin, r: Run) {
    RunSafe(o, r) && (r.live ==>
      && SourceCaptured(o, r) && r.w.repo.source.head == o.repo.source.head
      && r.w.repo.destination == o.repo.destination && DestinationStash(o, r.w.repo).None?
      && r.journal.destinationStashRef.None? && !r.journal.destinationStashApplied
      && r.w.row.step == CaptureSource)
  }

  ghost predicate AfterCaptureDestination(o: Origin, r: Run) {
    RunSafe(o, r) && (r.live ==>
      && SourceCaptured(o, r) && DestinationCaptured(o, r)
      && r.w.repo.source.head == o.repo.source.head
      && r.w.repo.destination == o.repo.destination.(changes := [])
      && !r.journal.destinationStashApplied
      && r.w.row.step == CaptureSource)
  }

  ghost predicate AfterRelease(o: Origin, r: Run) {
    RunSafe(o, r) && (r.live ==>
      && SourceCaptured(o, r) && DestinationCaptured(o, r)
      && r.w.repo.source.head == ParkedHead(o.plan)
      && r.w.repo.destination == o.repo.destination.(changes := [])
      && !r.journal.destinationStashApplied
      && r.w.row.step == ReleaseBranch)
  }

  /** The branch sits in the destination, which holds `changes`; the source is parked and clean. */
  ghost predicate Moved(o: Origin, r: Run, changes: seq<Git.Patch>) {
    && SourceCaptured(o, r) && DestinationCaptured(o, r)
    && r.w.repo.source.head == ParkedHead(o.plan)
    && r.w.repo.destination == Tree(OnBranch(o.plan.sourceBranch), changes)
  }

  ghost predicate AfterAcquire(o: Origin, r: Run) {
    RunSafe(o, r) && (r.live ==> Moved(o, r, []) && !r.journal.destinationStashApplied && r.w.row.step == CheckoutDestination)
  }

  ghost predicate AfterApplySource(o: Origin, r: Run) {
    RunSafe(o, r) && (r.live ==>
      && Moved(o, r, o.repo.source.changes) && !r.journal.destinationStashApplied
      && r.w.row.step == (if r.journal.sourceStashRef.Some? then ApplySourceChanges else CheckoutDestination))
  }

  ghost predicate Delivered(o: Origin, r: Run) {
    && Moved(o, r, o.repo.source.changes + (if r.journal.destinationStashApplied then o.repo.destination.changes else []))
    && (r.journal.destinationStashApplied ==> r.journal.destinationStashRef.Some?)
  }

  ghost predicate AfterApplyDestination(o: Origin, r: Run) {
    RunSafe(o, r) && (r.live ==>
      && Delivered(o, r)
      && r.w.row.step == (if r.journal.sourceStashRef.Some? || r.journal.destinationStashRef.Some? then ApplySourceChanges else CheckoutDestination))
  }

  ghost predicate Done(o: Origin, r: Run) {
    RunSafe(o, r) && (r.live ==> Delivered(o, r) && r.w.row.step == ApplySourceChanges)
  }

  // ----- building blocks -----

  lemma MergedJournalGuides(base: Journal, patch: Journal, o: Origin, repo: Repo)
    requires Guides(base, o, repo) && Guides(patch, o, repo)
    ensures Guides(MergeJournal(base, patch), o, repo)
  {
  }

  lemma StepIsAccepted(r: Run, step: Step, change: Change)
    requires !r.rejected && r.w.row.status.Running?
    requires r.live ==> StepIndex(step) - StepIndex(r.w.row.step) in {0, 1}
    ensures var r' := Save(r, step, change);
            && !r'.rejected && r'.w.repo == r.w.repo && r'.warnings == r.warnings && r'.journal == r.journal
            && (r'.live ==> r.live && !r'.w.env.crashed)
            && (r'.live ==> r'.w.row.step == step && r'.w.row.journal == MergeJournal(r.w.row.journal, change.journal))
            && (r'.live ==> r'.w.row.status == (if step.AwaitClientTransfer? then AwaitingClient else Running))
            && (!r'.live ==> r'.w.row == r.w.row)
  {
  }

  /** Recording a step touches nothing but the row, and is never refused when the step is due. */
  lemma OnStepRecords(o: Origin, r: Run, step: Step)
    requires Recoverable(o, r.w.repo) && Guides(r.journal, o, r.w.repo) && Guides(r.w.row.journal, o, r.w.repo)
    requires !r.rejected && r.w.row.status.Running?
    requires r.live ==> StepIndex(step) - StepIndex(r.w.row.step) in {0, 1} && step != AwaitClientTransfer
    requires r.live ==> Behind(r.w.row.journal, r.journal)
    ensures var r' := OnStep(r, step);
            && RunSafe(o, r') && r'.w.repo == r.w.repo && r'.journal == r.journal && r'.warnings == r.warnings
            && (r'.live ==> r.live && r'.w.row.step == step)
  {
    StepIsAccepted(r, step, NO_CHANGE.(journal := r.journal));
    MergedJournalGuides(r.w.row.journal, r.journal, o, r.w.repo);
  }

  lemma CaptureOutcome(w: World, side: Side, marker: Marker)
    ensures var (w', captured) := Capture(w, side, marker);
            && w'.row == w.row
            && match captured
               case Nothing => w'.repo == w.repo && !w.repo.Dirty(side)
               case Entry(oid) => w'.repo == w.repo.Push(side, marker) && w.repo.Dirty(side) && oid == w.repo.nextOid
               case Thrown(_) => w'.repo == w.repo || (w.repo.Dirty(side) && w'.repo == w.repo.Push(side, marker))
  {
  }

  lemma GuidesAcrossPush(j: Journal, o: Origin, repo: Repo, next: Repo)
    requires Guides(j, o, repo)
    requires SourceStash(o, repo).Some? ==> SourceStash(o, next) == SourceStash(o, repo)
    requires DestinationStash(o, repo).Some? ==> DestinationStash(o, next) == DestinationStash(o, repo)
    requires o.plan.direction.WorktreeToLocal? ==> DestinationStash(o, next) == DestinationStash(o, repo)
    ensures Guides(j, o, next)
  {
  }

  lemma SourcePushed(o: Origin, repo: Repo)
    requires Begins(o) && Recoverable(o, repo) && repo.source == o.repo.source && SourceStash(o, repo).None? && repo.Dirty(Source)
    ensures var next := repo.Push(Source, SourceMarker(o.id));
            && Recoverable(o, next) && SourceStash(o, next).Some? && SourceStash(o, next).value.oid == repo.nextOid
            && DestinationStash(o, next) == DestinationStash(o, repo)
            && next.source == repo.source.(changes := []) && next.destination == repo.destination
  {
    PushKeeps(repo, Source, SourceMarker(o.id), SourceMarker(o.id));
    PushKeeps(repo, Source, SourceMarker(o.id), DestinationMarker(o.id));
    ExtendsIsTransitive(repo.Push(Source, SourceMarker(o.id)), repo, o.repo);
  }

  lemma DestinationPushed(o: Origin, repo: Repo)
    requires Begins(o) && Recoverable(o, repo) && repo.destination == o.repo.destination && DestinationStash(o, repo).None? && repo.Dirty(Destination)
    ensures var next := repo.Push(Destination, DestinationMarker(o.id));
            && Recoverable(o, next) && DestinationStash(o, next).Some? && DestinationStash(o, next).value.oid == repo.nextOid
            && SourceStash(o, next) == SourceStash(o, repo)
            && next.destination == repo.destination.(changes := []) && next.source == repo.source
  {
    PushKeeps(repo, Destination, DestinationMarker(o.id), SourceMarker(o.id));
    PushKeeps(repo, Destination, DestinationMarker(o.id), DestinationMarker(o.id));
    ExtendsIsTransitive(repo.Push(Destination, DestinationMarker(o.id)), repo, o.repo);
  }

  /** A required mutation, on a run that is safe before and would be safe after. */
  lemma RequiredKeeps(o: Origin, r: Run, effect: Option<Repo>, code: ErrorCode)
    requires RunSafe(o, r)
    requires r.live && effect.Some? ==> Recoverable(o, effect.value) && effect.value.stashes == r.w.repo.stashes
    ensures var r' := Required(r, effect, code);
            && RunSafe(o, r') && r'.journal == r.journal && r'.warnings == r.warnings && r'.w.row == r.w.row
            && (r'.live ==> r.live && effect == Some(r'.w.repo))
  {
    MutateIsAtomic(r.w, effect);
  }

  // ----- the stages -----

  lemma CaptureSourceSafe(o: Origin, r: Run)
    requires Begins(o) && Prepared(o, r)
    ensures AfterCaptureSource(o, CaptureSourceStage(r))
  {
    var marker := SourceMarker(o.id);
    CaptureOutcome(r.w, Source, marker);
    var (w1, captured) := Capture(r.w, Source, marker);
    if r.w.repo.Dirty(Source) {
      SourcePushed(o, r.w.repo);
      GuidesAcrossPush(r.journal, o, r.w.repo, r.w.repo.Push(Source, marker));
      GuidesAcrossPush(r.w.row.journal, o, r.w.repo, r.w.repo.Push(Source, marker));
    }
    match captured {
      case Thrown(_) =>
      case Nothing => OnStepRecords(o, r.(w := w1), CaptureSource);
      case Entry(oid) => OnStepRecords(o, r.(w := w1, journal := r.journal.(sourceStashRef := Some(oid))), CaptureSource);
    }
  }

  lemma CaptureDestinationSafe(o: Origin, r: Run)
    requires Begins(o) && AfterCaptureSource(o, r)
    ensures AfterCaptureDestination(o, CaptureDestinationStage(o.plan, r))
  {
    if r.live && o.plan.direction.LocalToWorktree? {
      var marker := DestinationMarker(o.id);
      CaptureOutcome(r.w, Destination, marker);
      var (w1, captured) := Capture(r.w, Destination, marker);
      if r.w.repo.Dirty(Destination) {
        DestinationPushed(o, r.w.repo);
        GuidesAcrossPush(r.journal, o, r.w.repo, r.w.repo.Push(Destination, marker));
        GuidesAcrossPush(r.w.row.journal, o, r.w.repo, r.w.repo.Push(Destination, marker));
      }
      match captured {
        case Thrown(_) =>
        case Nothing => OnStepRecords(o, r.(w := w1), CaptureSource);
        case Entry(oid) => OnStepRecords(o, r.(w := w1, journal := r.journal.(destinationStashRef := Some(oid))), CaptureSource);
      }
    }
  }

  lemma ReleaseSafe(o: Origin, r: Run)
    requires Begins(o) && AfterCaptureDestination(o, r)
    ensures AfterRelease(o, ReleaseStage(o.plan, r))
  {
    if r.live {
      var repo := r.w.repo;
      var effect := if o.plan.direction.LocalToWorktree? then repo.CheckoutBranch(Source, o.plan.fallbackBranch.value)
                    else repo.CheckoutCommit(Source, o.plan.sourceHead);
      var tree := repo.source.(head := ParkedHead(o.plan));
      assert effect.Some? ==> effect.value == repo.With(Source, tree);
      if effect.Some? { SourceMoves(o, repo, tree); }
      RequiredKeeps(o, r, effect, CheckoutFailed);
      var r1 := Required(r, effect, CheckoutFailed);
      var r2 := if o.plan.direction.LocalToWorktree? || !r1.live then r1 else r1.(journal := r1.journal.(sourceDetached := true));
      OnStepRecords(o, r2, ReleaseBranch);
    }
  }

  lemma AcquireSafe(o: Origin, r: Run)
    requires Begins(o) && AfterRelease(o, r)
    ensures AfterAcquire(o, AcquireStage(o.plan, r))
  {
    if r.live {
      var repo := r.w.repo;
      var effect := repo.CheckoutBranch(Destination, o.plan.sourceBranch);
      var tree := repo.destination.(head := OnBranch(o.plan.sourceBranch));
      assert effect.Some? ==> effect.value == repo.With(Destination, tree);
      if effect.Some? { DestinationMoves(o, repo, tree); }
      RequiredKeeps(o, r, effect, CheckoutFailed);
      OnStepRecords(o, Required(r, effect, CheckoutFailed), CheckoutDestination);
    }
  }

  lemma ApplySourceSafe(o: Origin, r: Run)
    requires Begins(o) && AfterAcquire(o, r)
    ensures AfterApplySource(o, ApplySourceStage(r))
  {
    if r.live && r.journal.sourceStashRef.Some? {
      var repo := r.w.repo;
      MarkedStashApplies(repo, Destination, SourceMarker(o.id));
      var tree := repo.destination.(changes := repo.destination.changes + o.repo.source.changes);
      assert [] + o.repo.source.changes == o.repo.source.changes;
      var effect := repo.Apply(Destination, r.journal.sourceStashRef.value);
      assert effect == Some(repo.With(Destination, tree));
      DestinationMoves(o, repo, tree);
      RequiredKeeps(o, r, effect, ApplyFailed);
      OnStepRecords(o, Required(r, effect, ApplyFailed), ApplySourceChanges);
    }
  }

  lemma ApplyDestinationSafe(o: Origin, r: Run)
    requires Begins(o) && AfterApplySource(o, r)
    ensures AfterApplyDestination(o, ApplyDestinationStage(r))
  {
    assert o.repo.source.changes + [] == o.repo.source.changes;
    if r.live && r.journal.destinationStashRef.Some? {
      var repo := r.w.repo;
      MarkedStashApplies(repo, Destination, DestinationMarker(o.id));
      var tree := repo.destination.(changes := repo.destination.changes + o.repo.destination.changes);
      var effect := repo.Apply(Destination, r.journal.destinationStashRef.value);
      assert effect == Some(repo.With(Destination, tree));
      DestinationMoves(o, repo, tree);
      MutateIsAtomic(r.w, effect);
      var (w1, ok) := Mutate(r.w, effect);
      OnStepRecords(o, if ok then r.(w := w1, journal := r.journal.(destinationStashApplied := true))
                             else r.(w := w1, warnings := r.warnings + [NOT_RESTORED]), ApplySourceChanges);
    }
  }

  lemma LastSafe(o: Origin, r: Run)
    requires Begins(o) && AfterApplyDestination(o, r)
    ensures Done(o, LastStage(r))
  {
    OnStepRecords(o, r, ApplySourceChanges);
  }

  /** Main result on `Transfer`.  Wherever it stops - at a failing command, at a crash between any two
      effects, or at its end - both worktrees can be rolled back from the journal; every step it reports
      is accepted; and if it runs through, the branch and the source's work are in the destination, on
      top of which the destination's own work is restored or still stashed. */
  lemma TransferIsRecoverable(o: Origin, r: Run)
    requires Begins(o) && Prepared(o, r)
    ensures Done(o, Transfer(o.plan, r))
  {
    CaptureSourceSafe(o, r);
    var r1 := CaptureSourceStage(r);
    CaptureDestinationSafe(o, r1);
    var r2 := CaptureDestinationStage(o.plan, r1);
    ReleaseSafe(o, r2);
    var r3 := ReleaseStage(o.plan, r2);
    assert r3 == GiveUp(o.plan, r);
    AcquireSafe(o, r3);
    var r4 := AcquireStage(o.plan, r3);
    ApplySourceSafe(o, r4);
    var r5 := ApplySourceStage(r4);
    ApplyDestinationSafe(o, r5);
    LastSafe(o, ApplyDestinationStage(r5));
  }
}
