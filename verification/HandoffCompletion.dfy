/** From a start that returned to a completed handoff: what is recorded, and what an acknowledgement then does. */
module HandoffCompletion {
  import opened Options
  import opened Faults
  import opened Git
  import opened HandoffRepository
  import opened GitHandoffCoordinator
  import opened HandoffRecovery
  import opened HandoffTransfer
  import opened HandoffFinalize
  import opened HandoffService
  import opened HandoffSafety
  import opened HandoffSuccess

  // ----- the thread that was forked -----

  lemma SaveRecords(r: Run, step: Step, change: Change)
    requires r.live ==> r.w.row.status.Running?
    ensures var r' := Save(r, step, change);
            r'.live ==> r.live && r'.w.row.targetThread == (if change.targetThread.Some? then change.targetThread else r.w.row.targetThread)
  {
  }

  lemma HandOverRecords(o: Origin, r: Run, thread: string)
    requires Done(o, r) && r.live
    ensures HandOver(r, thread).live ==> HandOver(r, thread).w.row.targetThread == Some(thread)
  {
    WarningsAreAccepted(o, r, r.warnings);
    var r1 := SaveWarnings(r, r.warnings);
    WarningsKeepRepo(r, r.warnings);
    MarkStaysMarked(r, r1, ForkConversation, NO_CHANGE);
    var r2 := Port(Mark(r1, ForkConversation));
    var change := NO_CHANGE.(targetThread := Some(thread));
    MarkStaysMarked(r, r2, TransferCoreState, change);
    SaveRecords(r2, TransferCoreState, change);
    SaveRecords(Port(Save(r2, TransferCoreState, change)), AwaitClientTransfer, NO_CHANGE);
  }

  lemma MoveGitRecords(o: Origin, ready: Run, thread: string)
    requires Begins(o) && ready.live && Prepared(o, ready)
    ensures var b := MoveGit(ready, o.plan, thread); b.run.live ==> b.run.w.row.targetThread == Some(thread)
  {
    TransferIsRecoverable(o, ready);
    var moved := Transfer(o.plan, ready);
    if moved.live { HandOverRecords(o, moved, thread); }
  }

  /** With any verdicts, a start that returns has recorded the thread it forked. */
  lemma ReturnedStartRecordsThread(w: World, input: Input)
    requires Fresh(w, input) && StartOwned(w, input).returned
    ensures StartOwned(w, input).w.row.targetThread == Some(input.forkedThread)
  {
    var start := Run(w, EMPTY_JOURNAL, [], None, false);
    AdmitKeeps(start, input.createdForOperation);
    var admitted := Admit(start, input.createdForOperation);
    InspectFits(admitted.w, input.direction, input.defaultBranch);
    var (w1, inspected) := Inspect(admitted.w, input.direction, input.defaultBranch);
    if inspected.Ok? {
      var o := Origin(inspected.value, w.repo, input.markerId);
      CheckpointPrepares(o, admitted.(w := w1));
      var ready := CheckpointJournal(admitted.(w := w1), CreateJournal(o.plan, o.id));
      if ready.live { MoveGitRecords(o, ready, input.forkedThread); }
    }
  }

  // ----- the acknowledgement -----

  /** The stashes that a completed handoff leaves to nobody: its source's, whose work is in the destination, and its
      destination's if that work was put back on top. */
  ghost predicate Spent(o: Origin, delivered: Repo, putBack: bool, stash: Stash) {
    Some(stash) == SourceStash(o, delivered) || (putBack && Some(stash) == DestinationStash(o, delivered))
  }

  lemma CalmQuery(w: World)
    requires Calm(w.env)
    ensures Query(w).1 && Calm(Query(w).0.env) && Query(w).0 == w.(env := Query(w).0.env)
  {
    CalmAttempt(w.env);
  }

  lemma CalmDropOid(w: World, oid: Option<nat>)
    requires Calm(w.env) && Ordered(w.repo.stashes, w.repo.nextOid)
    requires oid.Some? ==> exists stash <- w.repo.stashes :: stash.oid == oid.value
    ensures var (v, ok) := DropOid(w, oid);
            ok && Calm(v.env) && v.repo == w.repo.(stashes := if oid.Some? then Keep(w.repo.stashes, {oid.value}) else w.repo.stashes) && v.row == w.row
  {
    if oid.Some? {
      CalmQuery(w);
      DropByIndex(w.repo.stashes, w.repo.nextOid, oid.value);
      if IndexOf(w.repo.stashes, oid.value).None? {
        var stash :| stash in w.repo.stashes && stash.oid == oid.value;
        KeptIsListed(w.repo.stashes, {oid.value}, stash);
      }
      CalmAttempt(Query(w).0.env);
    }
  }

  lemma CalmFinalize(w: World, j: Journal)
    requires Calm(w.env) && Ordered(w.repo.stashes, w.repo.nextOid) && Present(j, w.repo)
    ensures var (v, warnings) := Finalize(w, j);
            warnings == [] && Calm(v.env) && v.repo == w.repo.(stashes := Keep(w.repo.stashes, Disposable(j))) && v.row == w.row
  {
    var first := if j.sourceStashRef.Some? then {j.sourceStashRef.value} else {};
    CalmDropOid(w, j.sourceStashRef);
    var (w1, _) := DropOid(w, j.sourceStashRef);
    AbsentIsKept(w.repo.stashes, {});
    KeepStaysOrdered(w.repo.stashes, w.repo.nextOid, first);
    assert w1.repo.stashes == Keep(w.repo.stashes, first);
    if j.destinationStashApplied && j.destinationStashRef.Some? {
      var stash :| stash in w.repo.stashes && stash.oid == j.destinationStashRef.value;
      KeptIsListed(w.repo.stashes, first, stash);
      CalmDropOid(w1, j.destinationStashRef);
      KeepTwice(w.repo.stashes, first, {j.destinationStashRef.value});
    } else {
      assert Disposable(j) == first;
    }
  }

  /** Every stash the journal refers to is listed, and the two are different. */
  ghost predicate Present(j: Journal, repo: Repo) {
    && (j.sourceStashRef.Some? ==> exists stash <- repo.stashes :: stash.oid == j.sourceStashRef.value)
    && (j.destinationStashRef.Some? ==> exists stash <- repo.stashes :: stash.oid == j.destinationStashRef.value)
    && (j.sourceStashRef.Some? && j.destinationStashRef.Some? ==> j.sourceStashRef != j.destinationStashRef)
  }

  lemma GuidedIsPresent(o: Origin, repo: Repo, j: Journal)
    requires Wf(repo) && Guides(j, o, repo)
    ensures Present(j, repo)
  {
    FoundMarkerIsListed(repo.stashes, SourceMarker(o.id));
    FoundMarkerIsListed(repo.stashes, DestinationMarker(o.id));
    if j.sourceStashRef.Some? && j.destinationStashRef.Some? {
      OidFindsItsEntry(repo.stashes, repo.nextOid, SourceStash(o, repo).value);
      OidFindsItsEntry(repo.stashes, repo.nextOid, DestinationStash(o, repo).value);
    }
  }

  lemma CalmCleanUp(w: World, j: Journal)
    requires Calm(w.env) && Ordered(w.repo.stashes, w.repo.nextOid) && Present(j, w.repo)
    ensures var (v, ok) := CleanUp(w, j);
            ok && v.repo == w.repo.(stashes := Keep(w.repo.stashes, Disposable(j))) && v.row == w.row.(journal := EMPTY_JOURNAL)
  {
    CalmQuery(w);
    var (w1, _) := Query(w);
    CalmFinalize(w1, j);
    var (w2, _) := Finalize(w1, j);
    CalmQuery(w2);
    CalmQuery(Query(w2).0);
  }

  lemma SpentIsDisposable(o: Origin, r: Run, j: Journal, stash: Stash)
    requires Begins(o) && Recoverable(o, r.w.repo) && Delivered(o, r) && Guides(r.journal, o, r.w.repo) && Agrees(j, r.journal)
    requires stash in r.w.repo.stashes
    ensures stash.oid in Disposable(j) <==> Spent(o, r.w.repo, j.destinationStashApplied, stash)
  {
    FoundMarkerIsListed(r.w.repo.stashes, SourceMarker(o.id));
    FoundMarkerIsListed(r.w.repo.stashes, DestinationMarker(o.id));
    SameOidSameStash(r.w.repo, stash);
  }

  /** Main result on completion.  However a start went that returned, one acknowledgement that nothing disturbs, at the
      revision of the row, completes the operation, forgets its journal, leaves both worktrees as they are, and drops
      exactly the stashes that are spent. */
  lemma UndisturbedAcknowledgementCompletes(w: World, input: Input, env: Env)
    requires Fresh(w, input) && StartOwned(w, input).returned && Calm(env)
    ensures var s := StartOwned(w, input);
            var (v, ok) := Acknowledge(s.w.(env := env), s.w.row.revision);
            && s.plan.Some? && ok && v.row.status.Completed? && v.row.targetThread == Some(input.forkedThread) && v.row.journal == EMPTY_JOURNAL
            && v.repo == s.w.repo.(stashes := v.repo.stashes)
            && var putBack := s.w.row.journal.destinationStashApplied;
            && s.w.repo.destination.changes == w.repo.source.changes + (if putBack then w.repo.destination.changes else [])
            && forall stash <- s.w.repo.stashes ::
                 stash in v.repo.stashes <==> !Spent(Origin(s.plan.value, w.repo, input.markerId), s.w.repo, putBack, stash)
  {
    BodyIsSafe(w, input);
    ReturnedStartRecordsThread(w, input);
    var s := StartOwned(w, input);
    var b := StartBody(w, input);
    var o := Origin(s.plan.value, w.repo, input.markerId);
    AwaitedCompletes(o, b.run, s.w.(env := env));
  }

  lemma AwaitedCompletes(o: Origin, r: Run, w: World)
    requires Begins(o) && Recoverable(o, r.w.repo) && Delivered(o, r) && Guides(r.journal, o, r.w.repo) && Agrees(w.row.journal, r.journal)
    requires w.repo == r.w.repo && w.row.status.AwaitingClient? && w.row.targetThread.Some? && Calm(w.env)
    ensures var (v, ok) := Acknowledge(w, w.row.revision);
            && ok && v.row.status.Completed? && v.row.targetThread == w.row.targetThread && v.row.journal == EMPTY_JOURNAL
            && v.repo == w.repo.(stashes := v.repo.stashes)
            && forall stash <- w.repo.stashes :: stash in v.repo.stashes <==> !Spent(o, w.repo, w.row.journal.destinationStashApplied, stash)
  {
    GuidedIsPresent(o, w.repo, r.journal);
    var done := CompleteRow(w.row, w.row.revision).value;
    CalmQuery(w);
    var (w1, _) := Query(w);
    CalmCleanUp(w1.(row := done), w.row.journal);
    forall stash | stash in w.repo.stashes
      ensures stash in Keep(w.repo.stashes, Disposable(w.row.journal)) <==> !Spent(o, w.repo, w.row.journal.destinationStashApplied, stash)
    {
      KeptIsListed(w.repo.stashes, Disposable(w.row.journal), stash);
      SpentIsDisposable(o, r, w.row.journal, stash);
    }
  }
}
