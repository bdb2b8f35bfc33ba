/** Where the work of both worktrees is, whatever goes wrong. */
module HandoffSurvival {
  import opened Options
  import opened Faults
  import opened Git
  import opened HandoffRepository
  import opened GitHandoffCoordinator
  import opened HandoffRecovery
  import opened HandoffFinalize

  ghost predicate Stashed(repo: Repo, marker: Marker, work: seq<Git.Patch>) {
    exists stash <- repo.stashes :: stash.marker == marker && stash.changes == work
  }

  /** Until the operation is completed: the source's work is in its worktree or in the stash of its marker, the
      destination's in its worktree, in the stash of its marker or pushed aside; and no stash has gone. */
  ghost predicate Held(base: Repo, id: nat, repo: Repo) {
    && (base.source.changes == [] || repo.source.changes == base.source.changes || Stashed(repo, SourceMarker(id), base.source.changes))
    && (base.destination.changes == [] || repo.destination.changes == base.destination.changes
        || Stashed(repo, DestinationMarker(id), base.destination.changes) || Stashed(repo, RollbackMarker, base.destination.changes))
    && Extends(repo, base)
  }

  /** At any time, completed or not: the source's work is in its worktree, at the head of the destination's or stashed;
      the destination's is in its worktree, alone or on top of the source's, or stashed; and every older stash is
      listed. */
  ghost predicate Survives(base: Repo, id: nat, repo: Repo) {
    && (base.source.changes == [] || repo.source.changes == base.source.changes || base.source.changes <= repo.destination.changes
        || Stashed(repo, SourceMarker(id), base.source.changes))
    && (base.destination.changes == [] || repo.destination.changes == base.destination.changes
        || repo.destination.changes == base.source.changes + base.destination.changes
        || Stashed(repo, DestinationMarker(id), base.destination.changes) || Stashed(repo, RollbackMarker, base.destination.changes))
    && forall stash <- base.stashes :: stash in repo.stashes
  }

  lemma ExtendsKeepsStash(repo: Repo, base: Repo, stash: Stash)
    requires Extends(repo, base) && stash in base.stashes
    ensures stash in repo.stashes
  {
    assert stash in repo.stashes[|repo.stashes| - |base.stashes|..];
  }

  lemma ExtendsKeepsStashed(repo: Repo, base: Repo, marker: Marker, work: seq<Git.Patch>)
    requires Extends(repo, base) && Stashed(base, marker, work)
    ensures Stashed(repo, marker, work)
  {
    var stash :| stash in base.stashes && stash.marker == marker && stash.changes == work;
    ExtendsKeepsStash(repo, base, stash);
  }

  lemma HeldSurvives(base: Repo, id: nat, repo: Repo)
    requires Held(base, id, repo)
    ensures Survives(base, id, repo)
  {
    forall stash | stash in base.stashes ensures stash in repo.stashes { ExtendsKeepsStash(repo, base, stash); }
  }

  lemma RecoverableHolds(o: Origin, repo: Repo)
    requires Recoverable(o, repo)
    ensures Held(o.repo, o.id, repo)
  {
    FoundMarkerIsListed(repo.stashes, SourceMarker(o.id));
    FoundMarkerIsListed(repo.stashes, DestinationMarker(o.id));
  }

  lemma ItselfHolds(base: Repo, id: nat)
    ensures Held(base, id, base)
  {
    assert base.stashes[0..] == base.stashes;
  }

  // ----- what a rollback does to the work, command by command -----

  /** The command leaves the changes of both worktrees, or fills a clean one, or pushes the destination's aside; and
      it drops no stash. */
  ghost predicate Careful(repo: Repo, next: Repo) {
    && Extends(next, repo)
    && (next.source.changes == repo.source.changes || repo.source.changes == [])
    && (next.destination.changes == repo.destination.changes || repo.destination.changes == []
        || Stashed(next, RollbackMarker, repo.destination.changes))
  }

  lemma CarefulHolds(base: Repo, id: nat, repo: Repo, next: Repo)
    requires Held(base, id, repo) && Careful(repo, next)
    ensures Held(base, id, next)
  {
    ExtendsIsTransitive(next, repo, base);
    if Stashed(repo, SourceMarker(id), base.source.changes) { ExtendsKeepsStashed(next, repo, SourceMarker(id), base.source.changes); }
    if Stashed(repo, DestinationMarker(id), base.destination.changes) { ExtendsKeepsStashed(next, repo, DestinationMarker(id), base.destination.changes); }
    if Stashed(repo, RollbackMarker, base.destination.changes) { ExtendsKeepsStashed(next, repo, RollbackMarker, base.destination.changes); }
  }

  lemma NothingIsCareful(repo: Repo, next: Repo)
    requires next.stashes == repo.stashes && next.source.changes == repo.source.changes && next.destination.changes == repo.destination.changes
    ensures Careful(repo, next)
  {
    assert repo.stashes[0..] == repo.stashes;
  }

  lemma PushIsCareful(repo: Repo)
    ensures Careful(repo, repo.Push(Destination, RollbackMarker))
  {
    var next := repo.Push(Destination, RollbackMarker);
    if repo.Dirty(Destination) {
      assert next.stashes[0].marker == RollbackMarker && next.stashes[0].changes == repo.destination.changes;
      assert next.stashes[1..] == repo.stashes;
    } else {
      NothingIsCareful(repo, repo);
    }
  }

  lemma TryHolds(base: Repo, id: nat, r: Report, effect: Option<Repo>)
    requires Held(base, id, r.w.repo) && (effect.Some? ==> Careful(r.w.repo, effect.value))
    ensures Held(base, id, Try(r, effect).w.repo)
  {
    MutateIsAtomic(r.w, effect);
    if effect.Some? { CarefulHolds(base, id, r.w.repo, effect.value); }
  }

  lemma CheckoutHolds(base: Repo, id: nat, r: Report, side: Side, b: Branch, c: Commit)
    requires Held(base, id, r.w.repo)
    ensures Held(base, id, Try(r, r.w.repo.CheckoutBranch(side, b)).w.repo)
    ensures Held(base, id, Try(r, r.w.repo.CheckoutCommit(side, c)).w.repo)
  {
    var branch, commit := r.w.repo.CheckoutBranch(side, b), r.w.repo.CheckoutCommit(side, c);
    if branch.Some? { NothingIsCareful(r.w.repo, branch.value); }
    NothingIsCareful(r.w.repo, commit.value);
    TryHolds(base, id, r, branch);
    TryHolds(base, id, r, commit);
  }

  lemma ReturnHolds(base: Repo, id: nat, j: Journal, r: Report)
    requires Held(base, id, r.w.repo)
    ensures Held(base, id, ReturnSource(j, ReturnDestination(j, r)).w.repo)
  {
    CheckoutHolds(base, id, r, Destination, if j.destinationBranch.Some? then j.destinationBranch.value else "",
                  if j.destinationHead.Some? then j.destinationHead.value else 0);
    CheckoutHolds(base, id, ReturnDestination(j, r), Source, if j.sourceBranch.Some? then j.sourceBranch.value else "", 0);
  }

  lemma ApplyHolds(base: Repo, id: nat, r: Report, side: Side, ref: Option<nat>)
    requires Held(base, id, r.w.repo)
    ensures Held(base, id, ApplyIfNeeded(r, side, ref).w.repo)
  {
    if ref.Some? {
      var (w1, _) := Query(r.w);
      var effect := w1.repo.Apply(side, ref.value);
      if !w1.repo.Dirty(side) && effect.Some? {
        assert w1.repo.stashes[0..] == w1.repo.stashes;
        TryHolds(base, id, r.(w := w1), effect);
      }
    }
  }

  lemma PushAsideLeads(w: World, original: bool)
    ensures var r := PushAside(w, original);
            (r.w.repo == w.repo || r.w.repo == w.repo.Push(Destination, RollbackMarker)) && r.w.row == w.row
  {
    var (w1, _) := Query(w);
    MutateIsAtomic(w1, Some(w1.repo.Push(Destination, RollbackMarker)));
  }

  lemma ProbesLeave(w: World, plan: Plan)
    ensures AtOriginalDestination(w, plan).0.repo == w.repo && AtOriginalDestination(w, plan).0.row == w.row
  {
  }

  lemma ClearHolds(base: Repo, id: nat, w: World, plan: Plan)
    requires Held(base, id, w.repo)
    ensures Held(base, id, ClearDestination(w, plan).w.repo) && ClearDestination(w, plan).w.row == w.row
  {
    ProbesLeave(w, plan);
    var (w1, original, _) := AtOriginalDestination(w, plan);
    PushAsideLeads(w1, original);
    PushIsCareful(w.repo);
    CarefulHolds(base, id, w.repo, w.repo.Push(Destination, RollbackMarker));
  }

  /** No rollback, from whatever state, with whatever plan and journal, and whatever is refused or dies in it, loses
      work that was held. */
  lemma RollbackHolds(base: Repo, id: nat, plan: Plan, w: World, j: Journal)
    requires Held(base, id, w.repo)
    ensures Held(base, id, Rollback(plan, w, j).w.repo) && Rollback(plan, w, j).w.row == w.row
  {
    var (w1, source, destination, _) := ResolveBoth(w, j);
    ResolveLeaves(w, j);
    ClearHolds(base, id, w1, plan);
    var cleared := ClearDestination(w1, plan);
    ReturnHolds(base, id, j, cleared);
    var r2 := ReturnSource(j, ReturnDestination(j, cleared));
    ApplyHolds(base, id, r2, Source, source);
    ApplyHolds(base, id, ApplyIfNeeded(r2, Source, source), Destination, destination);
    LaterStepsKeepStashes(j, cleared, source, destination);
  }

  /** Nor does it drop a stash. */
  lemma RollbackDropsNothing(plan: Plan, w: World, j: Journal)
    ensures Extends(Rollback(plan, w, j).w.repo, w.repo) && Rollback(plan, w, j).w.row == w.row
  {
    ItselfHolds(w.repo, 0);
    RollbackHolds(w.repo, 0, plan, w, j);
  }

  lemma ResolveLeaves(w: World, j: Journal)
    ensures ResolveBoth(w, j).0.repo == w.repo && ResolveBoth(w, j).0.row == w.row
  {
  }
}
