/** A handoff over all the lives of the process: started once, then recovered and acknowledged any number of times,
    in any order, with any commands refused and the process dying anywhere. */
module HandoffLives {
  import opened Options
  import opened Faults
  import opened Git
  import opened HandoffRepository
  import opened GitHandoffCoordinator
  import opened HandoffRecovery
  import opened HandoffTransfer
  import opened HandoffFinalize
  import opened HandoffSurvival
  import opened HandoffReports
  import opened HandoffService
  import opened HandoffSafety
  import opened HandoffCrashes

  datatype Act = RecoverIt | AcknowledgeAt(revision: nat)

  /** What is done next, and whether the process is started again for it. */
  datatype Later = Later(restarted: bool, act: Act)

  function Live(w: World, direction: Direction, l: Later): World {
    var v := if l.restarted then w.(env := Restart(w.env)) else w;
    match l.act
    case RecoverIt => Recover(v, direction)
    case AcknowledgeAt(revision) => Acknowledge(v, revision).0
  }

  function Lives(w: World, direction: Direction, later: seq<Later>): World
    decreases |later|
  {
    if later == [] then w else Lives(Live(w, direction, later[0]), direction, later[1..])
  }

  // ----- how an operation stands -----

  /** A delivered transfer: what `StartOwned` leaves when it returns. */
  ghost predicate DeliveredRun(o: Origin, r: Run) {
    Begins(o) && Recoverable(o, r.w.repo) && Delivered(o, r) && Guides(r.journal, o, r.w.repo)
  }

  /** Finalizing has dropped some of the stashes it may drop; the journal is the one it goes by, or forgotten. */
  ghost predicate Finalizing(r: Run, w: World) {
    && (w.row.journal == EMPTY_JOURNAL || Agrees(w.row.journal, r.journal))
    && exists dropped :: dropped <= Disposable(r.journal) && w.repo == r.w.repo.(stashes := Keep(r.w.repo.stashes, dropped))
  }

  /** Before the client takes over, everything is held; while the client is awaited the delivered state is untouched;
      after that only finalizing goes on. */
  ghost predicate Stands(base: Repo, id: nat, delivered: Option<Run>, w: World) {
    match w.row.status
    case AwaitingClient =>
      && delivered.Some? && w.repo == delivered.value.w.repo && Agrees(w.row.journal, delivered.value.journal)
      && exists plan :: DeliveredRun(Origin(plan, base, id), delivered.value)
    case Completed =>
      && delivered.Some? && Finalizing(delivered.value, w)
      && exists plan :: DeliveredRun(Origin(plan, base, id), delivered.value)
    case _ => Held(base, id, w.repo)
  }

  lemma DeliveredHolds(o: Origin, r: Run)
    requires DeliveredRun(o, r)
    ensures Held(o.repo, o.id, r.w.repo)
  {
    RecoverableHolds(o, r.w.repo);
  }

  lemma StandingSurvives(base: Repo, id: nat, delivered: Option<Run>, w: World)
    requires Stands(base, id, delivered, w)
    ensures Survives(base, id, w.repo)
  {
    if w.row.status.Completed? {
      var plan :| DeliveredRun(Origin(plan, base, id), delivered.value);
      var o := Origin(plan, base, id);
      var dropped :| dropped <= Disposable(delivered.value.journal) &&
                     w.repo == delivered.value.w.repo.(stashes := Keep(delivered.value.w.repo.stashes, dropped));
      KeptLosesNothing(o, delivered.value, w.repo, dropped);
    } else if w.row.status.AwaitingClient? {
      var plan :| DeliveredRun(Origin(plan, base, id), delivered.value);
      DeliveredHolds(Origin(plan, base, id), delivered.value);
      HeldSurvives(base, id, w.repo);
    } else {
      HeldSurvives(base, id, w.repo);
    }
  }

  // ----- the start -----

  lemma StartStands(w: World, input: Input)
    requires Fresh(w, input)
    ensures var s := StartOwned(w, input);
            Stands(w.repo, input.markerId, if s.returned then Some(StartBody(w, input).run) else None, s.w)
  {
    BodyIsSafe(w, input);
    var b := StartBody(w, input);
    var o := OriginOf(w.repo, input, b.plan);
    if b.run.live {
      assert DeliveredRun(o.value, b.run);
    } else {
      if o.Some? { RecoverableHolds(o.value, b.run.w.repo); } else { ItselfHolds(w.repo, input.markerId); }
      UnwindHolds(w.repo, input.markerId, b);
    }
  }

  lemma UnwindHolds(base: Repo, id: nat, b: Body)
    requires Held(base, id, b.run.w.repo) && b.run.w.row.status.Running?
    ensures var s := Unwind(b);
            && !s.returned && Held(base, id, s.w.repo) && Extends(s.w.repo, b.run.w.repo)
            && (s.w.row.status.Running? || s.w.row.status.Failed? || s.w.row.status.RollbackFailed?)
  {
    var (w1, forkGone) := Query(b.run.w);
    var report := UnwindGit(b, w1);
    ItselfHolds(b.run.w.repo, id);
    if b.plan.Some? {
      var j := if b.transferred.Some? then b.transferred.value else w1.row.journal;
      RollbackHolds(base, id, b.plan.value, w1, j);
      RollbackDropsNothing(b.plan.value, w1, j);
    }
  }

  // ----- recovering -----

  lemma RecoverHolds(base: Repo, id: nat, w: World, direction: Direction)
    requires Held(base, id, w.repo)
    ensures var v := Recover(w, direction);
            && Held(base, id, v.repo) && Extends(v.repo, w.repo)
            && (w.row.status.Running? ==> v.row.status.Running? || v.row.status.Failed? || v.row.status.RollbackFailed?)
            && (!w.row.status.Running? ==> v == w)
  {
    ItselfHolds(w.repo, id);
    if w.row.status.Running? {
      var (w1, _) := Query(w);
      RecoverGitHolds(base, id, w1, direction);
      RecoverEnds(w, direction);
    }
  }

  lemma RecoverGitHolds(base: Repo, id: nat, w: World, direction: Direction)
    requires Held(base, id, w.repo)
    ensures var (v, _) := RecoverGit(w, direction);
            Held(base, id, v.repo) && Extends(v.repo, w.repo) && v.row == w.row
  {
    ItselfHolds(w.repo, id);
    var plan := PlanOf(direction, w.row.journal);
    if w.row.journal.sourceHead.Some? && plan.Some? {
      RollbackHolds(base, id, plan.value, w, w.row.journal);
      RollbackDropsNothing(plan.value, w, w.row.journal);
    }
  }

  lemma RecoverEnds(w: World, direction: Direction)
    requires w.row.status.Running?
    ensures var (w1, _) := Query(w);
            var v := Recover(w, direction);
            && (v.repo == w.repo || v.repo == RecoverGit(w1, direction).0.repo)
            && (v.row.status.Running? || v.row.status.Failed? || v.row.status.RollbackFailed?)
  {
    var (w1, _) := Query(w);
    RecoverGitLeavesRow(w1, direction);
  }

  lemma RecoverGitLeavesRow(w: World, direction: Direction)
    ensures RecoverGit(w, direction).0.row == w.row
  {
    var plan := PlanOf(direction, w.row.journal);
    if plan.Some? { RollbackDropsNothing(plan.value, w, w.row.journal); }
  }

  // ----- acknowledging -----

  /** Cleaning up finalizes, or does nothing, and leaves the journal or forgets it. */
  lemma CleanUpLeads(w: World, journal: Journal)
    requires Ordered(w.repo.stashes, w.repo.nextOid)
    ensures var (v, _) := CleanUp(w, journal);
            && v.row.status == w.row.status && (v.row.journal == w.row.journal || v.row.journal == EMPTY_JOURNAL)
            && exists dropped :: dropped <= Disposable(journal) && v.repo == w.repo.(stashes := Keep(w.repo.stashes, dropped))
  {
    CleanUpLeavesJournal(w, journal);
    CleanUpIsFinalize(w, journal);
    var v := CleanUp(w, journal).0;
    AbsentIsKept(w.repo.stashes, {});
    if v.repo == w.repo {
      assert w.repo == w.repo.(stashes := Keep(w.repo.stashes, {}));
    } else {
      var env :| v.repo == Finalize(w.(env := env), journal).0.repo;
      FinalizeDropsExactly(w.(env := env), journal, false);
    }
  }

  lemma CleanUpLeavesJournal(w: World, journal: Journal)
    ensures var (v, _) := CleanUp(w, journal); v.row.journal == w.row.journal || v.row.journal == EMPTY_JOURNAL
  {
    hide Tidy;
    TidyIsFinalize(w, journal);
  }

  lemma SameDisposable(a: Journal, b: Journal)
    requires a == EMPTY_JOURNAL || Agrees(a, b)
    ensures Disposable(a) <= Disposable(b)
  {
  }

  lemma CleanUpFinalizes(r: Run, w: World, journal: Journal)
    requires Wf(r.w.repo) && Finalizing(r, w) && (journal == EMPTY_JOURNAL || Agrees(journal, r.journal))
    ensures Finalizing(r, CleanUp(w, journal).0) && CleanUp(w, journal).0.row.status == w.row.status
  {
    var a :| a <= Disposable(r.journal) && w.repo == r.w.repo.(stashes := Keep(r.w.repo.stashes, a));
    KeepStaysOrdered(r.w.repo.stashes, r.w.repo.nextOid, a);
    CleanUpLeads(w, journal);
    var v := CleanUp(w, journal).0;
    var b :| b <= Disposable(journal) && v.repo == w.repo.(stashes := Keep(w.repo.stashes, b));
    SameDisposable(journal, r.journal);
    KeepTwice(r.w.repo.stashes, a, b);
    assert a + b <= Disposable(r.journal) && v.repo == r.w.repo.(stashes := Keep(r.w.repo.stashes, a + b));
  }

  lemma UntouchedIsFinalizing(r: Run, w: World)
    requires w.repo == r.w.repo && Agrees(w.row.journal, r.journal)
    ensures Finalizing(r, w)
  {
    AbsentIsKept(r.w.repo.stashes, {});
    assert w.repo == r.w.repo.(stashes := Keep(r.w.repo.stashes, {}));
  }

  lemma CompletionLeavesJournal(row: Row, revision: nat)
    ensures CompleteRow(row, revision).Ok? ==> CompleteRow(row, revision).value.status.Completed? && CompleteRow(row, revision).value.journal == row.journal
    ensures CompleteRow(row, revision).Ok? ==> row.status.Completed? || row.status.AwaitingClient?
  {
  }

  lemma AcknowledgeStands(base: Repo, id: nat, delivered: Option<Run>, w: World, revision: nat)
    requires Stands(base, id, delivered, w)
    ensures var v := Acknowledge(w, revision).0;
            Stands(base, id, delivered, v) && (!v.row.status.Completed? ==> v.repo == w.repo)
  {
    if w.row.status.Completed? {
      CleanUpFinalizes(delivered.value, w, w.row.journal);
    } else {
      var (w1, ok) := Query(w);
      CompletionLeavesJournal(w1.row, revision);
      if ok && CompleteRow(w1.row, revision).Ok? {
        var done := w1.(row := CompleteRow(w1.row, revision).value);
        UntouchedIsFinalizing(delivered.value, done);
        CleanUpFinalizes(delivered.value, done, w.row.journal);
      }
    }
  }

  // ----- all lives -----

  lemma LiveStands(base: Repo, id: nat, delivered: Option<Run>, w: World, direction: Direction, l: Later)
    requires Stands(base, id, delivered, w)
    ensures var v := Live(w, direction, l);
            && Stands(base, id, delivered, v)
            && (!v.row.status.Completed? ==> Extends(v.repo, w.repo) && !w.row.status.Completed?)
  {
    var v := if l.restarted then w.(env := Restart(w.env)) else w;
    ItselfHolds(w.repo, id);
    match l.act {
      case RecoverIt =>
        if v.row.status.Running? { RecoverHolds(base, id, v, direction); }
      case AcknowledgeAt(revision) =>
        AcknowledgeStands(base, id, delivered, v, revision);
        FinalizeOnlyWhenCompleted(v, revision);
    }
  }

  lemma {:induction false} LivesStand(base: Repo, id: nat, delivered: Option<Run>, w: World, direction: Direction, later: seq<Later>)
    requires Stands(base, id, delivered, w)
    ensures var v := Lives(w, direction, later);
            Stands(base, id, delivered, v) && (!v.row.status.Completed? ==> Extends(v.repo, w.repo) && !w.row.status.Completed?)
    decreases |later|
  {
    if later == [] {
      ItselfHolds(w.repo, id);
    } else {
      var next := Live(w, direction, later[0]);
      LiveStands(base, id, delivered, w, direction, later[0]);
      LivesStand(base, id, delivered, next, direction, later[1..]);
      var v := Lives(next, direction, later[1..]);
      if !v.row.status.Completed? { ExtendsIsTransitive(v.repo, next.repo, w.repo); }
    }
  }

  /** Main result on loss.  A handoff is started and then, over any lives of the process, recovered and acknowledged
      any number of times, with any commands refused and the process dying anywhere: the uncommitted work of both
      worktrees survives, every older stash is listed, and until the operation is completed every stash that was ever
      made for it is listed too. */
  lemma NothingIsEverLost(w: World, input: Input, later: seq<Later>)
    requires Fresh(w, input)
    ensures var s := StartOwned(w, input);
            var v := Lives(s.w, input.direction, later);
            && Survives(w.repo, input.markerId, v.repo)
            && (!v.row.status.Completed? ==> Extends(v.repo, s.w.repo) && Extends(s.w.repo, StartBody(w, input).run.w.repo))
  {
    StartStands(w, input);
    var s := StartOwned(w, input);
    var delivered := if s.returned then Some(StartBody(w, input).run) else None;
    LivesStand(w.repo, input.markerId, delivered, s.w, input.direction, later);
    StandingSurvives(w.repo, input.markerId, delivered, Lives(s.w, input.direction, later));
    StartDropsNothing(w, input);
  }

  lemma StartDropsNothing(w: World, input: Input)
    requires Fresh(w, input)
    ensures Extends(StartOwned(w, input).w.repo, StartBody(w, input).run.w.repo)
  {
    BodyIsSafe(w, input);
    var b := StartBody(w, input);
    ItselfHolds(b.run.w.repo, input.markerId);
    if !b.run.live { UnwindHolds(b.run.w.repo, input.markerId, b); }
  }
}
