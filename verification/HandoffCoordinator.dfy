/** The coordinator as an object: commands change the repository in place, one after another, and a
    failing command ends the method the way an exception does. */
module HandoffCoordinator {
  import opened Options
  import opened Faults
  import opened Git
  import opened HandoffRepository
  import G = GitHandoffCoordinator
  import R = HandoffRecovery
  import P = HandoffReports

  /** `Threw` carries the code of the error and whether it was the repository that refused a step. */
  datatype TransferResult = Moved(journal: Journal, warnings: seq<string>) | Threw(code: ErrorCode, rejected: bool)

  class GitHandoffCoordinator {
    var repo: Repo
    var row: Row
    var env: Env

    function World(): G.World reads this { G.World(repo, row, env) }

    constructor (w: G.World)
      ensures World() == w
    {
      repo, row, env := w.repo, w.row, w.env;
    }

    /** A command that only reads. */
    method Query() returns (ok: bool)
      modifies this`env
      ensures (World(), ok) == G.Query(old(World()))
    {
      var (next, happened) := Attempt(env);
      env, ok := next, happened;
    }

    method Mutate(effect: Option<Repo>) returns (ok: bool)
      modifies this`env, this`repo
      ensures (World(), ok) == G.Mutate(old(World()), effect)
    {
      var (next, happened) := Attempt(env);
      env, ok := next, happened && effect.Some?;
      if ok { repo := effect.value; }
    }

    method Capture(side: Side, marker: Marker) returns (captured: G.Captured)
      modifies this`env, this`repo
      ensures (World(), captured) == G.Capture(old(World()), side, marker)
    {
      var statusOk := Query();
      if !statusOk { return G.Thrown(NotGit); }
      if !repo.Dirty(side) { return G.Nothing; }
      var beforeOk := Query();
      var before := if beforeOk then repo.StashTop() else None;
      var pushed := Mutate(Some(repo.Push(side, marker)));
      if !pushed { return G.Thrown(StashFailed); }
      var afterOk := Query();
      var after := repo.StashTop();
      if !afterOk || after.None? || before == after { return G.Thrown(StashFailed); }
      return G.Entry(after.value);
    }

    /** Record a step in the operation row. */
    method Save(step: Step, change: Change, ghost journal: Journal, ghost warnings: seq<string>) returns (thrown: Option<ErrorCode>, rejected: bool)
      modifies this`env, this`row
      ensures G.Run(World(), journal, warnings, thrown, rejected) == G.Save(G.Run(old(World()), journal, warnings, None, false), step, change)
      ensures thrown.None? ==> !rejected
    {
      var happened := Query();
      if !happened { return Some(HistoryUnsupported), false; }
      match AdvanceRow(row, step, change) {
        case Ok(next) =>
          row := next;
          return None, false;
        case Err(code) => return Some(code), true;
      }
    }

    /** The `onStep` callback of a transfer. */
    method OnStep(step: Step, journal: Journal, ghost warnings: seq<string>) returns (thrown: Option<ErrorCode>, rejected: bool)
      modifies this`env, this`row
      ensures G.Run(World(), journal, warnings, thrown, rejected) == G.OnStep(G.Run(old(World()), journal, warnings, None, false), step)
      ensures thrown.None? ==> !rejected
    {
      thrown, rejected := Save(step, NO_CHANGE.(journal := journal), journal, warnings);
    }

    method CaptureSource(prepared: Journal, ghost warnings: seq<string>) returns (journal: Journal, thrown: Option<ErrorCode>, rejected: bool)
      modifies this
      ensures G.Run(World(), journal, warnings, thrown, rejected) == G.CaptureSourceStage(G.Run(old(World()), prepared, warnings, None, false))
      ensures thrown.None? ==> !rejected
    {
      journal := prepared;
      var captured := Capture(Source, G.MarkerOf(journal.sourceStashMarker));
      if captured.Thrown? { return journal, Some(captured.code), false; }
      if captured.Entry? { journal := journal.(sourceStashRef := Some(captured.oid)); }
      thrown, rejected := OnStep(Step.CaptureSource, journal, warnings);
    }

    method CaptureDestination(plan: G.Plan, before: Journal, ghost warnings: seq<string>) returns (journal: Journal, thrown: Option<ErrorCode>, rejected: bool)
      modifies this
      ensures G.Run(World(), journal, warnings, thrown, rejected) == G.CaptureDestinationStage(plan, G.Run(old(World()), before, warnings, None, false))
      ensures thrown.None? ==> !rejected
    {
      journal, thrown, rejected := before, None, false;
      if plan.direction.LocalToWorktree? {
        var captured := Capture(Destination, G.MarkerOf(journal.destinationStashMarker));
        if captured.Thrown? { return journal, Some(captured.code), false; }
        if captured.Entry? { journal := journal.(destinationStashRef := Some(captured.oid)); }
        thrown, rejected := OnStep(Step.CaptureSource, journal, warnings);
      }
    }

    method ReleaseSourceBranch(plan: G.Plan, before: Journal, ghost warnings: seq<string>) returns (journal: Journal, thrown: Option<ErrorCode>, rejected: bool)
      modifies this
      ensures G.Run(World(), journal, warnings, thrown, rejected) == G.ReleaseStage(plan, G.Run(old(World()), before, warnings, None, false))
      ensures thrown.None? ==> !rejected
    {
      journal := before;
      var ok;
      if plan.direction.LocalToWorktree? {
        if plan.fallbackBranch.None? { return journal, Some(DefaultBranch), false; }
        ok := Mutate(repo.CheckoutBranch(Source, plan.fallbackBranch.value));
      } else {
        ok := Mutate(repo.CheckoutCommit(Source, plan.sourceHead));
        if ok { journal := journal.(sourceDetached := true); }
      }
      if !ok { return journal, Some(CheckoutFailed), false; }
      thrown, rejected := OnStep(Step.ReleaseBranch, journal, warnings);
    }

    method AcquireBranch(plan: G.Plan, journal: Journal, ghost warnings: seq<string>) returns (thrown: Option<ErrorCode>, rejected: bool)
      modifies this
      ensures G.Run(World(), journal, warnings, thrown, rejected) == G.AcquireStage(plan, G.Run(old(World()), journal, warnings, None, false))
      ensures thrown.None? ==> !rejected
    {
      var ok := Mutate(repo.CheckoutBranch(Destination, plan.sourceBranch));
      if !ok { return Some(CheckoutFailed), false; }
      thrown, rejected := OnStep(Step.CheckoutDestination, journal, warnings);
    }

    method ApplySource(journal: Journal, ghost warnings: seq<string>) returns (thrown: Option<ErrorCode>, rejected: bool)
      modifies this
      ensures G.Run(World(), journal, warnings, thrown, rejected) == G.ApplySourceStage(G.Run(old(World()), journal, warnings, None, false))
      ensures thrown.None? ==> !rejected
    {
      thrown, rejected := None, false;
      if journal.sourceStashRef.Some? {
        var ok := Mutate(repo.Apply(Destination, journal.sourceStashRef.value));
        if !ok { return Some(ApplyFailed), false; }
        thrown, rejected := OnStep(Step.ApplySourceChanges, journal, warnings);
      }
    }

    method ApplyDestination(before: Journal, given: seq<string>) returns (journal: Journal, warnings: seq<string>, thrown: Option<ErrorCode>, rejected: bool)
      modifies this
      ensures G.Run(World(), journal, warnings, thrown, rejected) == G.ApplyDestinationStage(G.Run(old(World()), before, given, None, false))
      ensures thrown.None? ==> !rejected
    {
      journal, warnings, thrown, rejected := before, given, None, false;
      if journal.destinationStashRef.Some? {
        var restored := Mutate(repo.Apply(Destination, journal.destinationStashRef.value));
        if restored {
          journal := journal.(destinationStashApplied := true);
        } else {
          warnings := warnings + [G.NOT_RESTORED];
        }
        thrown, rejected := OnStep(Step.ApplySourceChanges, journal, warnings);
      }
    }

    method GiveUp(plan: G.Plan, prepared: Journal, ghost warnings: seq<string>) returns (journal: Journal, thrown: Option<ErrorCode>, rejected: bool)
      modifies this
      ensures G.Run(World(), journal, warnings, thrown, rejected) == G.GiveUp(plan, G.Run(old(World()), prepared, warnings, None, false))
      ensures thrown.None? ==> !rejected
    {
      journal, thrown, rejected := CaptureSource(prepared, warnings);
      DeadRunStays(plan, G.Run(World(), journal, warnings, thrown, rejected));
      if thrown.Some? { return; }
      journal, thrown, rejected := CaptureDestination(plan, journal, warnings);
      DeadRunStays(plan, G.Run(World(), journal, warnings, thrown, rejected));
      if thrown.Some? { return; }
      journal, thrown, rejected := ReleaseSourceBranch(plan, journal, warnings);
    }

    method TakeOver(plan: G.Plan, given: Journal) returns (journal: Journal, warnings: seq<string>, thrown: Option<ErrorCode>, rejected: bool)
      modifies this
      ensures G.Run(World(), journal, warnings, thrown, rejected) == G.TakeOver(plan, G.Run(old(World()), given, [], None, false))
      ensures thrown.None? ==> !rejected
    {
      journal, warnings := given, [];
      thrown, rejected := AcquireBranch(plan, journal, warnings);
      DeadRunStays(plan, G.Run(World(), journal, warnings, thrown, rejected));
      if thrown.Some? { return; }
      thrown, rejected := ApplySource(journal, warnings);
      DeadRunStays(plan, G.Run(World(), journal, warnings, thrown, rejected));
      if thrown.Some? { return; }
      journal, warnings, thrown, rejected := ApplyDestination(journal, warnings);
      if thrown.None? && journal.sourceStashRef.None? && journal.destinationStashRef.None? {
        thrown, rejected := OnStep(Step.ApplySourceChanges, journal, warnings);
      }
    }

    method Transfer(plan: G.Plan, prepared: Journal) returns (result: TransferResult)
      modifies this
      ensures var r := G.Transfer(plan, G.Run(old(World()), prepared, [], None, false));
              && World() == r.w
              && (if r.live then result == Moved(r.journal, r.warnings) && !r.rejected else result == Threw(r.thrown.value, r.rejected))
    {
      var journal, thrown, rejected := GiveUp(plan, prepared, []);
      DeadRunTakesNothing(plan, G.Run(World(), journal, [], thrown, rejected));
      if thrown.Some? { return Threw(thrown.value, rejected); }
      var warnings;
      journal, warnings, thrown, rejected := TakeOver(plan, journal);
      return if thrown.None? then Moved(journal, warnings) else Threw(thrown.value, rejected);
    }

    method Resolve(ref: Option<nat>, marker: Option<Marker>) returns (found: Option<nat>)
      modifies this`env
      ensures G.Resolve(old(World()), ref, marker).0 == World() && G.Resolve(old(World()), ref, marker).1 == found
    {
      if ref.Some? || marker.None? { return ref; }
      var ok := Query();
      if !ok { return None; }
      match FindMarker(repo.stashes, marker.value) {
        case None => return None;
        case Some(stash) => return Some(stash.oid);
      }
    }

    method IsAtOriginalDestination(plan: G.Plan) returns (original: bool)
      modifies this`env
      ensures G.AtOriginalDestination(old(World()), plan).0 == World() && G.AtOriginalDestination(old(World()), plan).1 == original
    {
      var headOk := Query();
      if !headOk || repo.HeadCommit(Destination) != Some(plan.destinationHead) { return false; }
      var branchOk := Query();
      var branch := if branchOk && repo.destination.head.OnBranch? then Some(repo.destination.head.branch) else None;
      return branch == plan.destinationBranch;
    }

    method ClearDestination(plan: G.Plan) returns (ok: bool)
      modifies this`env, this`repo
      ensures G.ClearDestination(old(World()), plan).w == World() && G.ClearDestination(old(World()), plan).ok == ok
    {
      var original := IsAtOriginalDestination(plan);
      var statusOk := Query();
      if !statusOk { return false; }
      if !original && repo.Dirty(Destination) {
        ok := Mutate(Some(repo.Push(Destination, RollbackMarker)));
        return;
      }
      return true;
    }

    method ApplyStashIfNeeded(side: Side, ref: Option<nat>, ghost before: G.Report) returns (ok: bool)
      requires before.w == World()
      modifies this`env, this`repo
      ensures G.ApplyIfNeeded(before, side, ref) == before.(w := World(), ok := before.ok && ok)
    {
      if ref.None? { return true; }
      var statusOk := Query();
      if !statusOk { return false; }
      if repo.Dirty(side) {
        ok := Query();
      } else {
        ok := Mutate(repo.Apply(side, ref.value));
      }
    }

    /** Undo in the inverse order, keeping every stash. */
    method Rollback(plan: G.Plan, journal: Journal) returns (ok: bool)
      modifies this`env, this`repo
      ensures World() == G.Rollback(plan, old(World()), journal).w
      ensures ok == G.Rollback(plan, old(World()), journal).ok
      ensures forall o: R.Origin :: o.plan == plan && R.Begins(o) && R.Recoverable(o, old(repo)) && R.Guides(journal, o, old(repo)) ==>
                ok ==> (R.Restored(o, repo) <==> !P.Misled(o, old(repo), P.RefusedQueries(plan, old(World()), journal)))
    {
      ReportIsRight(plan, World(), journal);
      var source := Resolve(journal.sourceStashRef, journal.sourceStashMarker);
      var destination := Resolve(journal.destinationStashRef, journal.destinationStashMarker);
      ghost var cleared := G.ClearDestination(World(), plan);
      ok := ClearDestination(plan);
      if journal.destinationBranch.Some? {
        var done := Mutate(repo.CheckoutBranch(Destination, journal.destinationBranch.value));
        ok := ok && done;
      } else if journal.destinationHead.Some? {
        var done := Mutate(repo.CheckoutCommit(Destination, journal.destinationHead.value));
        ok := ok && done;
      }
      ghost var r1 := G.ReturnDestination(journal, cleared);
      assert r1.w == World() && r1.ok == ok;
      if journal.sourceBranch.Some? {
        var done := Mutate(repo.CheckoutBranch(Source, journal.sourceBranch.value));
        ok := ok && done;
      }
      ghost var r2 := G.ReturnSource(journal, r1);
      assert r2.w == World() && r2.ok == ok;
      var applied := ApplyStashIfNeeded(Source, source, r2);
      ok := ok && applied;
      applied := ApplyStashIfNeeded(Destination, destination, G.ApplyIfNeeded(r2, Source, source));
      ok := ok && applied;
    }

    /** Drop the source stash, and the destination's if it was put back, by looking each position up. */
    method Finalize(journal: Journal) returns (warnings: seq<string>)
      modifies this`env, this`repo
      ensures (World(), warnings) == G.Finalize(old(World()), journal)
    {
      warnings := [];
      var oids := [journal.sourceStashRef, if journal.destinationStashApplied then journal.destinationStashRef else None];
      ghost var w0 := World();
      for i := 0 to |oids|
        invariant i == 0 ==> World() == w0 && warnings == []
        invariant i == 1 ==> World() == G.DropOid(w0, oids[0]).0
        invariant i == 1 ==> warnings == if G.DropOid(w0, oids[0]).1 then [] else [G.STASH_KEPT]
        invariant i == 2 ==> (World(), warnings) == G.Finalize(w0, journal)
      {
        var oid := oids[i];
        assert [] + warnings == warnings && warnings + [] == warnings;
        if oid.Some? {
          var listed := Query();
          var index := if listed then G.IndexOf(repo.stashes, oid.value) else None;
          var dropped := false;
          if index.Some? { dropped := Mutate(repo.Drop(index.value)); }
          if !dropped { warnings := warnings + [G.STASH_KEPT]; }
        }
      }
    }
  }

  /** Once something threw, no later stage acts. */
  lemma DeadRunStays(plan: G.Plan, r: G.Run)
    ensures !r.live ==>
              && G.CaptureDestinationStage(plan, r) == r && G.ReleaseStage(plan, r) == r && G.AcquireStage(plan, r) == r
              && G.ApplySourceStage(r) == r && G.ApplyDestinationStage(r) == r && G.LastStage(r) == r
  {
  }

  lemma DeadRunTakesNothing(plan: G.Plan, r: G.Run)
    ensures !r.live ==> G.TakeOver(plan, r) == r
  {
    DeadRunStays(plan, r);
  }

  lemma ReportIsRight(plan: G.Plan, w: G.World, journal: Journal)
    ensures forall o: R.Origin :: o.plan == plan && R.Begins(o) && R.Recoverable(o, w.repo) && R.Guides(journal, o, w.repo) ==>
              G.Rollback(plan, w, journal).ok ==>
                (R.Restored(o, G.Rollback(plan, w, journal).w.repo) <==> !P.Misled(o, w.repo, P.RefusedQueries(plan, w, journal)))
  {
    forall o: R.Origin | o.plan == plan && R.Begins(o) && R.Recoverable(o, w.repo) && R.Guides(journal, o, w.repo)
      ensures G.Rollback(plan, w, journal).ok ==>
                (R.Restored(o, G.Rollback(plan, w, journal).w.repo) <==> !P.Misled(o, w.repo, P.RefusedQueries(plan, w, journal)))
    {
      P.ReportIsRightExactlyWhen(o, w, journal);
    }
  }
}
