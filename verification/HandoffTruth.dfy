/** What the recorded status of a handoff tells about its worktrees, with any commands refused. */
module HandoffTruth {
  import opened Options
  import opened Faults
  import opened Git
  import opened HandoffRepository
  import opened GitHandoffCoordinator
  import opened HandoffRecovery
  import opened HandoffReports
  import opened HandoffService
  import opened HandoffSafety
  import opened HandoffCrashes
  import opened HandoffLives

  // ----- when "failed" is right -----

  /** An error path that ends as failed has reported success, and its rollback was the last to touch the repository. */
  lemma FailedStartReported(b: Body, w: World, forkGone: bool, report: Option<Report>)
    requires b.run.w.row.status.Running? && w.row == b.run.w.row && (report.Some? ==> report.value.w.row == w.row)
    ensures var s := UnwindRest(b, w, forkGone, report);
            s.w.row.status.Failed? ==> if report.Some? then report.value.ok && s.w.repo == report.value.w.repo else s.w.repo == w.repo
  {
  }

  ghost predicate FailureIsRight(o: Origin, repo: Repo, w: World, j: Journal) {
    Restored(o, repo) <==> !Misled(o, w.repo, RefusedQueries(o.plan, w, j))
  }

  /** The journal the error path of a start goes by. */
  function JournalOf(b: Body): Journal { if b.transferred.Some? then b.transferred.value else b.run.w.row.journal }

  /** A start that ends as failed has restored both worktrees if and only if its rollback was not misled.  A start that
      failed before it had a plan never touched them. */
  lemma StartFailureIsRightExactlyWhen(w: World, input: Input)
    requires Fresh(w, input) && StartOwned(w, input).w.row.status.Failed?
    ensures var s := StartOwned(w, input);
            var b := StartBody(w, input);
            match OriginOf(w.repo, input, s.plan)
            case None => s.w.repo == w.repo
            case Some(o) => FailureIsRight(o, s.w.repo, Query(b.run.w).0, JournalOf(b))
  {
    BodyIsSafe(w, input);
    UnwindIsRight(w.repo, input, StartBody(w, input));
  }

  lemma UnwindIsRight(base: Repo, input: Input, b: Body)
    requires BodySafe(base, input, b) && !b.run.live && Unwind(b).w.row.status.Failed?
    ensures match OriginOf(base, input, b.plan)
            case None => Unwind(b).w.repo == base
            case Some(o) => FailureIsRight(o, Unwind(b).w.repo, Query(b.run.w).0, JournalOf(b))
  {
    var (w1, forkGone) := Query(b.run.w);
    var report := UnwindGit(b, w1);
    var o := OriginOf(base, input, b.plan);
    if o.Some? {
      RollbackRestores(o.value, w1, JournalOf(b));
      ReportIsRightExactlyWhen(o.value, w1, JournalOf(b));
    }
    FailedStartReported(b, w1, forkGone, report);
  }

  lemma RecoverGitRollsBack(o: Origin, w: World, direction: Direction)
    requires Guides(w.row.journal, o, w.repo)
    ensures var report := Rollback(o.plan, w, w.row.journal);
            RecoverGit(w, direction) == (report.w, report.ok)
  {
    JournalPlanSuffices(o, w, direction);
  }

  /** What a recovery leaves, given what its Git part does. */
  lemma FailedRecoveryReported(w: World, direction: Direction, git: (World, bool))
    requires w.row.status.Running? && git == RecoverGit(Query(w).0, direction)
    requires git.0.row == w.row
    ensures var v := Recover(w, direction);
            && (v.row.status.Failed? ==> Query(w).1 && git.1 && v.repo == git.0.repo)
            && (v.row.status.Running? ==> v.row == w.row && v.repo == (if Query(w).1 then git.0.repo else w.repo))
            && (v.row.status.Running? || v.row.status.Failed? || v.row.status.RollbackFailed?)
  {
  }

  /** A recovery that ends as failed has restored both worktrees if and only if its rollback was not misled. */
  lemma RecoveryIsRightExactlyWhen(o: Origin, w: World, direction: Direction)
    requires w.row.status.Running? && Undoable(o.repo, Some(o), w) && Recover(w, direction).row.status.Failed?
    ensures FailureIsRight(o, Recover(w, direction).repo, Query(w).0, w.row.journal)
  {
    var (w1, _) := Query(w);
    RecoverGitRollsBack(o, w1, direction);
    RecoverGitLeavesRow(w1, direction);
    FailedRecoveryReported(w, direction, RecoverGit(w1, direction));
    ReportIsRightExactlyWhen(o, w1, w1.row.journal);
  }

  // ----- over all lives -----

  /** An operation still running can be undone, and one that failed has been. */
  ghost predicate Truthful(base: Repo, o: Option<Origin>, w: World) {
    && (w.row.status.Running? ==> Undoable(base, o, w))
    && (w.row.status.Failed? ==> w.repo.source == base.source && w.repo.destination == base.destination)
  }

  /** The rollback of a recovery, if it comes to one. */
  function RecoveryReport(w: World, direction: Direction): Option<Report> {
    var plan := PlanOf(direction, w.row.journal);
    if w.row.status.Running? && Query(w).1 && plan.Some? then Some(Rollback(plan.value, Query(w).0, w.row.journal)) else None
  }

  ghost predicate Answered(report: Option<Report>) { report.Some? ==> Trusted(report.value) }

  /** Whatever else is refused, the probes and lookups of every recovery are answered. */
  ghost predicate AllAnswered(w: World, direction: Direction, later: seq<Later>)
    decreases |later|
  {
    later != [] ==>
      var v := if later[0].restarted then w.(env := Restart(w.env)) else w;
      (later[0].act.RecoverIt? ==> Answered(RecoveryReport(v, direction))) && AllAnswered(Live(w, direction, later[0]), direction, later[1..])
  }

  lemma RecoverTruthful(base: Repo, o: Option<Origin>, w: World, direction: Direction)
    requires Truthful(base, o, w) && w.row.status.Running? && Answered(RecoveryReport(w, direction))
    ensures Truthful(base, o, Recover(w, direction))
  {
    var (w1, found) := Query(w);
    RecoverGitLeavesRow(w1, direction);
    FailedRecoveryReported(w, direction, RecoverGit(w1, direction));
    if found && o.Some? { RecoverGitTruthful(base, o.value, w, direction); }
  }

  lemma RecoverGitTruthful(base: Repo, o: Origin, w: World, direction: Direction)
    requires Undoable(base, Some(o), w) && w.row.status.Running? && Query(w).1 && Answered(RecoveryReport(w, direction))
    ensures var (v, ok) := RecoverGit(Query(w).0, direction);
            Undoable(base, Some(o), v) && (ok ==> Restored(o, v.repo))
  {
    var (w1, _) := Query(w);
    JournalPlanSuffices(o, w1, direction);
    RecoverGitRollsBack(o, w1, direction);
    RollbackRestores(o, w1, w1.row.journal);
    RolledBackTruthful(base, o, w, Rollback(o.plan, w1, w1.row.journal));
  }

  lemma RolledBackTruthful(base: Repo, o: Origin, w: World, report: Report)
    requires Undoable(base, Some(o), w) && Discharges(o, w, report) && Trusted(report)
    ensures Undoable(base, Some(o), report.w) && (report.ok ==> Restored(o, report.w.repo))
  {
    SameStashesSameGuide(w.row.journal, o, w.repo, report.w.repo);
  }

  lemma AcknowledgeTruthful(base: Repo, o: Option<Origin>, w: World, revision: nat)
    requires Truthful(base, o, w)
    ensures Truthful(base, o, Acknowledge(w, revision).0)
  {
    FinalizeOnlyWhenCompleted(w, revision);
    CompletionLeavesJournal(w.row, revision);
  }

  lemma LiveTruthful(base: Repo, o: Option<Origin>, w: World, direction: Direction, l: Later)
    requires Truthful(base, o, w) && AllAnswered(w, direction, [l])
    ensures Truthful(base, o, Live(w, direction, l))
  {
    var v := if l.restarted then w.(env := Restart(w.env)) else w;
    match l.act {
      case RecoverIt => if v.row.status.Running? { RecoverTruthful(base, o, v, direction); }
      case AcknowledgeAt(revision) => AcknowledgeTruthful(base, o, v, revision);
    }
  }

  lemma {:induction false} LivesTruthful(base: Repo, o: Option<Origin>, w: World, direction: Direction, later: seq<Later>)
    requires Truthful(base, o, w) && AllAnswered(w, direction, later)
    ensures Truthful(base, o, Lives(w, direction, later))
    decreases |later|
  {
    if later != [] {
      LiveTruthful(base, o, w, direction, later[0]);
      LivesTruthful(base, o, Live(w, direction, later[0]), direction, later[1..]);
    }
  }

  /** Main result on truth.  Over any lives of the process, with any other commands refused and deaths anywhere: as long
      as the probes and lookups of each rollback are answered, an operation recorded as failed has both worktrees as
      they were, and one left running can still be undone. */
  lemma AnsweredLivesAreTruthful(w: World, input: Input, later: seq<Later>)
    requires Fresh(w, input) && Answered(StartOwned(w, input).report) && AllAnswered(StartOwned(w, input).w, input.direction, later)
    ensures var s := StartOwned(w, input);
            Truthful(w.repo, OriginOf(w.repo, input, s.plan), Lives(s.w, input.direction, later))
  {
    StartIsSafe(w, input);
    var s := StartOwned(w, input);
    LivesTruthful(w.repo, OriginOf(w.repo, input, s.plan), s.w, input.direction, later);
  }
}
