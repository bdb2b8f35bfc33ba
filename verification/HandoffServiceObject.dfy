/** `startOwned` and startup recovery as methods over the coordinator. */
module HandoffServiceObject {
  import opened Options
  import opened Faults
  import opened Git
  import opened HandoffRepository
  import G = GitHandoffCoordinator
  import S = HandoffService
  import opened HandoffCoordinator
  import HandoffSurvival
  import HandoffSafety
  import HandoffLives
  import HandoffCompletion

  class HandoffService {
    const git: GitHandoffCoordinator

    constructor (git: GitHandoffCoordinator)
      ensures this.git == git
    {
      this.git := git;
    }

    /** A call into a port; its exceptions carry no code of a handoff. */
    method Port() returns (thrown: Option<ErrorCode>)
      modifies git`env
      ensures forall r: G.Run :: r.live && r.w == old(git.World()) ==>
                S.Port(r) == if thrown.None? then r.(w := git.World()) else r.(w := git.World(), thrown := thrown)
      ensures git.World() == G.Query(old(git.World())).0 && (thrown == None || thrown == Some(HistoryUnsupported))
    {
      var ok := git.Query();
      return if ok then None else Some(HistoryUnsupported);
    }

    /** Everything before the plan.  `thrown` is the code of what threw. */
    method Admit(created: bool) returns (thrown: Option<ErrorCode>, rejected: bool)
      modifies git
      ensures G.Run(git.World(), EMPTY_JOURNAL, [], thrown, rejected) == S.Admit(G.Run(old(git.World()), EMPTY_JOURNAL, [], None, false), created)
      ensures thrown.None? ==> !rejected
    {
      rejected := false;
      thrown := Port();
      if thrown.None? { thrown, rejected := git.Save(StopSource, NO_CHANGE, EMPTY_JOURNAL, []); }
      if thrown.None? { thrown := Port(); }
      if thrown.None? { thrown := Port(); }
      if thrown.None? { thrown := Port(); }
      if thrown.None? { thrown, rejected := git.Save(PrepareDestination, NO_CHANGE, EMPTY_JOURNAL, []); }
      if thrown.None? { thrown := Port(); }
      if thrown.None? && created {
        thrown, rejected := git.Save(PrepareDestination, NO_CHANGE.(journal := EMPTY_JOURNAL.(destinationCreated := true)), EMPTY_JOURNAL, []);
      }
    }

    method HandOver(thread: string, ghost journal: Journal, warnings: seq<string>) returns (thrown: Option<ErrorCode>, rejected: bool)
      modifies git
      ensures G.Run(git.World(), journal, warnings, thrown, rejected) == S.HandOver(G.Run(old(git.World()), journal, warnings, None, false), thread)
    {
      thrown, rejected := SaveWarnings(warnings, journal, warnings);
      if thrown.None? { thrown, rejected := git.Save(ForkConversation, NO_CHANGE, journal, warnings); }
      if thrown.None? { thrown := Port(); }
      if thrown.None? { thrown, rejected := git.Save(TransferCoreState, NO_CHANGE.(targetThread := Some(thread)), journal, warnings); }
      if thrown.None? { thrown := Port(); }
      if thrown.None? { thrown, rejected := git.Save(AwaitClientTransfer, NO_CHANGE, journal, warnings); }
    }

    method SaveWarnings(warnings: seq<string>, ghost journal: Journal, ghost all: seq<string>) returns (thrown: Option<ErrorCode>, rejected: bool)
      modifies git
      ensures G.Run(git.World(), journal, all, thrown, rejected) == S.SaveWarnings(G.Run(old(git.World()), journal, all, None, false), warnings)
      ensures thrown.None? ==> !rejected
    {
      thrown, rejected := None, false;
      ghost var start := G.Run(git.World(), journal, all, None, false);
      var i := 0;
      while i < |warnings| && thrown.None?
        invariant 0 <= i <= |warnings|
        invariant !rejected || thrown.Some?
        invariant S.SaveWarnings(G.Run(git.World(), journal, all, thrown, rejected), warnings[i..]) == S.SaveWarnings(start, warnings)
      {
        thrown, rejected := git.Save(ApplySourceChanges, NO_CHANGE.(warning := Some(warnings[i])), journal, all);
        i := i + 1;
      }
      if thrown.Some? { DeadRunWarnsNothing(G.Run(git.World(), journal, all, thrown, rejected), warnings[i..]); }
    }

    /** `checkpointJournal`: the recovery intent becomes durable. */
    method CheckpointJournal(journal: Journal) returns (thrown: Option<ErrorCode>)
      modifies git
      ensures G.Run(git.World(), if thrown.None? then journal else EMPTY_JOURNAL, [], thrown, false)
           == S.CheckpointJournal(G.Run(old(git.World()), EMPTY_JOURNAL, [], None, false), journal)
    {
      thrown := Port();
      if thrown.None? { git.row := CheckpointRow(git.row, journal); }
    }

    /** The Git part and what follows it. */
    method MoveGit(plan: G.Plan, prepared: Journal, thread: string) returns (thrown: Option<ErrorCode>, rejected: bool, transferred: Option<Journal>)
      modifies git
      ensures var b := S.MoveGit(G.Run(old(git.World()), prepared, [], None, false), plan, thread);
              b.run.w == git.World() && b.run.thrown == thrown && b.run.rejected == rejected && b.transferred == transferred && b.plan == Some(plan)
    {
      var result := git.Transfer(plan, prepared);
      match result {
        case Threw(code, refused) => return Some(code), refused, None;
        case Moved(journal, warnings) =>
          thrown, rejected := HandOver(thread, journal, warnings);
          return thrown, rejected, Some(journal);
      }
    }

    method Inspect(direction: Direction, defaultBranch: Option<Branch>) returns (r: Result<G.Plan, ErrorCode>)
      modifies git
      ensures (git.World(), r) == G.Inspect(old(git.World()), direction, defaultBranch)
    {
      ghost var w := git.World();
      var ok := git.Query();
      if !ok { return Err(NotGit); }
      var sourceHead, destinationHead := git.repo.HeadCommit(Source), git.repo.HeadCommit(Destination);
      if sourceHead.None? || destinationHead.None? { return Err(NotGit); }
      if !git.repo.source.head.OnBranch? { return Err(if direction.LocalToWorktree? then LocalDetached else WorktreeDetached); }
      var sourceBranch := git.repo.source.head.branch;
      var fallback := if direction.LocalToWorktree? then defaultBranch else None;
      if direction.LocalToWorktree? && (fallback.None? || fallback.value == sourceBranch) { return Err(DefaultBranch); }
      var destinationBranch := if git.repo.destination.head.OnBranch? then Some(git.repo.destination.head.branch) else None;
      if direction.WorktreeToLocal? && git.repo.Dirty(Destination) { return Err(DestinationDirty); }
      return Ok(G.Plan(direction, sourceBranch, sourceHead.value, destinationBranch, destinationHead.value, fallback));
    }

    method StartBody(input: S.Input) returns (thrown: Option<ErrorCode>, rejected: bool, plan: Option<G.Plan>, transferred: Option<Journal>)
      modifies git
      ensures var b := S.StartBody(old(git.World()), input);
              b.run.w == git.World() && b.run.thrown == thrown && b.run.rejected == rejected && b.plan == plan && b.transferred == transferred
    {
      hide S.Admit, S.HandOver, G.Inspect, G.Transfer;
      plan, transferred := None, None;
      thrown, rejected := Admit(input.createdForOperation);
      if thrown.Some? { return; }
      var inspected := Inspect(input.direction, input.defaultBranch);
      match inspected {
        case Err(code) => return Some(code), rejected, None, None;
        case Ok(found) =>
          var prepared := G.CreateJournal(found, input.markerId);
          thrown := CheckpointJournal(prepared);
          if thrown.Some? { return; }
          thrown, rejected, transferred := MoveGit(found, prepared, input.forkedThread);
          plan := Some(found);
      }
    }

    method FailOperation(code: ErrorCode, rollbackFailed: bool)
      modifies git
      ensures git.World() == S.FailOperation(old(git.World()), code, rollbackFailed)
    {
      var ok := git.Query();
      if ok { git.row := FailRow(git.row, code, rollbackFailed); }
    }

    /** The catch clause. */
    method Unwind(thrown: Option<ErrorCode>, plan: Option<G.Plan>, transferred: Option<Journal>, ghost body: S.Body)
      requires body.run.thrown == thrown
      requires body.run.w == git.World() && body.plan == plan && body.transferred == transferred
      modifies git
      ensures git.World() == S.Unwind(body).w
    {
      var rollbackFailed := false;
      var forkGone := git.Query();
      if !forkGone { rollbackFailed := true; }
      if plan.Some? {
        var ok := git.Rollback(plan.value, if transferred.Some? then transferred.value else git.row.journal);
        rollbackFailed := !ok || rollbackFailed;
      }
      var unprepared := git.Query();
      if !unprepared { rollbackFailed := true; }
      FailOperation(S.Recorded(thrown), rollbackFailed);
    }

    /** Returns whether the call returned rather than threw. */
    method StartOwned(input: S.Input) returns (returned: bool)
      modifies git
      ensures git.World() == S.StartOwned(old(git.World()), input).w
      ensures returned == S.StartOwned(old(git.World()), input).returned
      ensures old(HandoffSafety.Fresh(git.World(), input)) ==>
              && (returned <==> git.row.status.AwaitingClient?)
              && (returned ==> git.row.targetThread == Some(input.forkedThread))
              && HandoffSurvival.Held(old(git.repo), input.markerId, git.repo)
              && HandoffSafety.StartSafe(old(git.repo), input, S.StartOwned(old(git.World()), input))
    {
      if HandoffSafety.Fresh(git.World(), input) {
        HandoffSafety.StartIsSafe(git.World(), input);
        if S.StartOwned(git.World(), input).returned { HandoffCompletion.ReturnedStartRecordsThread(git.World(), input); }
      }
      ghost var body := S.StartBody(git.World(), input);
      var thrown, _, plan, transferred := StartBody(input);
      if thrown.None? { return true; }
      Unwind(thrown, plan, transferred, body);
      return false;
    }

    method Recover(direction: Direction)
      modifies git
      ensures git.World() == S.Recover(old(git.World()), direction)
      ensures forall base, id :: HandoffSurvival.Held(base, id, old(git.repo)) ==> HandoffSurvival.Held(base, id, git.repo)
    {
      forall base, id | HandoffSurvival.Held(base, id, git.repo)
        ensures HandoffSurvival.Held(base, id, S.Recover(git.World(), direction).repo)
      {
        HandoffLives.RecoverHolds(base, id, git.World(), direction);
      }
      if !git.row.status.Running? { return; }
      var found := git.Query();
      if !found { FailOperation(RollbackIncomplete, true); return; }
      var journal := git.row.journal;
      var gitOk := true;
      if journal.sourceHead.Some? {
        match G.PlanOf(direction, journal) {
          case None => gitOk := false;
          case Some(plan) => gitOk := git.Rollback(plan, journal);
        }
      }
      var forkGone := git.Query();
      if !forkGone { FailOperation(RollbackIncomplete, true); return; }
      var unprepared := git.Query();
      var failed := !gitOk || !unprepared;
      FailOperation(if failed then RollbackIncomplete else HandoffInProgress, failed);
    }

    method Warn(warning: string) returns (ok: bool)
      modifies git
      ensures (git.World(), ok) == S.Warned(old(git.World()), warning)
    {
      ok := git.Query();
      if ok { git.row := WarnRow(git.row, warning); }
    }

    method AppendWarnings(warnings: seq<string>) returns (ok: bool)
      modifies git
      ensures (git.World(), ok) == S.AppendWarnings(old(git.World()), warnings)
    {
      ghost var start := git.World();
      var i := 0;
      while i < |warnings|
        invariant 0 <= i <= |warnings|
        invariant S.AppendWarnings(git.World(), warnings[i..]) == S.AppendWarnings(start, warnings)
      {
        ok := Warn(warnings[i]);
        if !ok { return false; }
        i := i + 1;
      }
      return true;
    }

    method CleanUp(journal: Journal) returns (ok: bool)
      modifies git
      ensures (git.World(), ok) == S.CleanUp(old(git.World()), journal)
    {
      var found := git.Query();
      if found {
        var warnings := git.Finalize(journal);
        var done := AppendWarnings(warnings);
        if done { done := git.Query(); }
        if done { done := git.Query(); }
        if done {
          git.row := git.row.(journal := EMPTY_JOURNAL);
          return true;
        }
      }
      ok := Warn(S.CLEANUP_PENDING);
    }

    /** The visibility boundary: complete the operation, then finalize. */
    method AcknowledgeClientTransfer(revision: nat) returns (ok: bool)
      modifies git
      ensures (git.World(), ok) == S.Acknowledge(old(git.World()), revision)
      ensures git.repo != old(git.repo) ==> git.row.status.Completed?
    {
      HandoffSafety.FinalizeOnlyWhenCompleted(git.World(), revision);
      var journal := git.row.journal;
      if !git.row.status.Completed? {
        ok := git.Query();
        if !ok { return; }
        match CompleteRow(git.row, revision) {
          case Err(_) => return false;
          case Ok(row) => git.row := row;
        }
      }
      ok := CleanUp(journal);
    }
  }

  lemma {:induction false} DeadRunWarnsNothing(r: G.Run, warnings: seq<string>)
    requires !r.live
    ensures S.SaveWarnings(r, warnings) == r
    decreases |warnings|
  {
    if warnings != [] { DeadRunWarnsNothing(r, warnings[1..]); }
  }
}
