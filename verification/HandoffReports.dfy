/** When a rollback that reports success is right.

    Four queries can be refused without the rollback reporting it: the two lookups of a stash by its marker and the
    two probes of the destination's head.  Whether the report is right is decided by which of them are refused, and by
    the state they are asked in. */
module HandoffReports {
  import opened Options
  import opened Faults
  import opened Git
  import opened HandoffRepository
  import opened GitHandoffCoordinator
  import opened HandoffRecovery

  datatype Refusals = Refusals(source: bool, destination: bool, head: bool, branch: bool)

  predicate LooksUp(ref: Option<nat>, marker: Option<Marker>) { ref.None? && marker.Some? }

  function Ask(w: World, asked: bool): (World, bool) { if asked then Query(w) else (w, true) }

  /** Which of the four queries the environment refuses.  A lookup is made only without a recorded reference, and the
      branch is asked for only at the original commit. */
  function RefusedQueries(plan: Plan, w: World, j: Journal): Refusals {
    var (w1, source) := Ask(w, LooksUp(j.sourceStashRef, j.sourceStashMarker));
    var (w2, destination) := Ask(w1, LooksUp(j.destinationStashRef, j.destinationStashMarker));
    var (w3, head) := Query(w2);
    var (_, branch) := Ask(w3, head && w.repo.HeadCommit(Destination) == Some(plan.destinationHead));
    Refusals(!source, !destination, !head, !branch)
  }

  // ----- the cases in which a report is wrong -----

  ghost predicate AtOriginal(o: Origin, repo: Repo) { repo.destination.head == o.repo.destination.head }

  /** The source's work is in its stash only, and that is not found. */
  ghost predicate SourceUnfound(o: Origin, repo: Repo, p: Refusals) {
    p.source && SourceStash(o, repo).Some? && repo.source.changes != o.repo.source.changes
  }

  /** The destination still has, or has again, its own work; a refused probe makes it look like what the transfer left,
      and no stash brings it back. */
  ghost predicate OwnWorkTaken(o: Origin, repo: Repo, p: Refusals) {
    && AtOriginal(o, repo) && repo.destination.changes == o.repo.destination.changes != []
    && (p.head || (p.branch && o.plan.destinationBranch.Some?))
    && (DestinationStash(o, repo).None? || p.destination)
  }

  /** The destination's work is in its stash only, and that is not found. */
  ghost predicate DestinationUnfound(o: Origin, repo: Repo, p: Refusals) {
    && p.destination && DestinationStash(o, repo).Some? && o.repo.destination.changes != []
    && (repo.destination.changes == [] || (!AtOriginal(o, repo) && !p.branch) || (!AtOriginal(o, repo) && o.plan.destinationBranch.Some?))
  }

  /** The destination was detached and is now on the source's branch, at the same commit: with the branch refused it
      looks untouched, and what the transfer left there stays. */
  ghost predicate LeftoverKept(o: Origin, repo: Repo, p: Refusals) {
    !AtOriginal(o, repo) && p.branch && o.plan.destinationBranch.None? && repo.destination.changes != o.repo.destination.changes
    && repo.destination.changes != []
  }

  ghost predicate Misled(o: Origin, repo: Repo, p: Refusals) {
    SourceUnfound(o, repo, p) || OwnWorkTaken(o, repo, p) || DestinationUnfound(o, repo, p) || LeftoverKept(o, repo, p)
  }

  // ----- command by command, as far as success tells -----

  lemma LookupTells(w: World, ref: Option<nat>, marker: Option<Marker>, stash: Option<Stash>)
    requires marker.Some? ==> stash == FindMarker(w.repo.stashes, marker.value)
    requires ref.Some? ==> stash.Some? && ref.value == stash.value.oid
    requires marker.None? ==> stash.None?
    ensures var (w', r, _) := Resolve(w, ref, marker);
            var (asked, answered) := Ask(w, LooksUp(ref, marker));
            w' == asked && r == (if stash.Some? && answered then Some(stash.value.oid) else None)
  {
  }

  /** The answer of the probes. */
  ghost predicate Seen(plan: Plan, repo: Repo, p: Refusals) {
    && !p.head && repo.HeadCommit(Destination) == Some(plan.destinationHead)
    && plan.destinationBranch == (if !p.branch && repo.destination.head.OnBranch? then Some(repo.destination.head.branch) else None)
  }

  lemma ProbesTell(plan: Plan, w: World)
    ensures var (_, original, _) := AtOriginalDestination(w, plan);
            var (w1, head) := Query(w);
            var (_, branch) := Ask(w1, head && w.repo.HeadCommit(Destination) == Some(plan.destinationHead));
            original <==> Seen(plan, w.repo, Refusals(false, false, !head, !branch))
  {
  }

  lemma ProbesLeave(plan: Plan, w: World)
    ensures AtOriginalDestination(w, plan).0.repo == w.repo && AtOriginalDestination(w, plan).0.row == w.row
  {
  }

  lemma TryTells(r: Report, effect: Option<Repo>)
    ensures Try(r, effect).ok ==> r.ok && effect == Some(Try(r, effect).w.repo)
  {
    MutateIsAtomic(r.w, effect);
  }

  lemma PushAsideTells(w: World, original: bool)
    ensures var r := PushAside(w, original);
            r.ok ==> r.w.repo == if original then w.repo else w.repo.Push(Destination, RollbackMarker)
  {
    var (w1, _) := Query(w);
    MutateIsAtomic(w1, Some(w1.repo.Push(Destination, RollbackMarker)));
  }

  /** The repository with both heads back. */
  function HeadsBack(o: Origin, repo: Repo): Repo {
    repo.(source := repo.source.(head := o.repo.source.head), destination := repo.destination.(head := o.repo.destination.head))
  }

  lemma ReturnTells(o: Origin, j: Journal, r: Report)
    requires Begins(o) && Guides(j, o, r.w.repo)
    requires Wf(r.w.repo) && r.w.repo.branches == o.repo.branches
    ensures var r' := ReturnSource(j, ReturnDestination(j, r));
            r'.ok ==> r.ok && r'.w.repo == HeadsBack(o, r.w.repo) && Wf(r'.w.repo)
  {
    var effect := if j.destinationBranch.Some? then r.w.repo.CheckoutBranch(Destination, j.destinationBranch.value)
                  else r.w.repo.CheckoutCommit(Destination, j.destinationHead.value);
    TryTells(r, effect);
    var r1 := ReturnDestination(j, r);
    assert r1 == Try(r, effect);
    TryTells(r1, r1.w.repo.CheckoutBranch(Source, j.sourceBranch.value));
  }

  /** The repository after a stash, if it was found, is applied to a clean worktree. */
  function Applied(repo: Repo, side: Side, found: bool, stash: Option<Stash>): Repo {
    if found && stash.Some? && !repo.Dirty(side) then repo.With(side, repo.At(side).(changes := stash.value.changes)) else repo
  }

  lemma ApplyTells(r: Report, side: Side, found: bool, marker: Marker)
    requires Wf(r.w.repo)
    ensures var stash := FindMarker(r.w.repo.stashes, marker);
            var r' := ApplyIfNeeded(r, side, if stash.Some? && found then Some(stash.value.oid) else None);
            r'.ok ==> r.ok && r'.w.repo == Applied(r.w.repo, side, found, stash) && Wf(r'.w.repo)
  {
    var stash := FindMarker(r.w.repo.stashes, marker);
    if found && stash.Some? {
      MarkedStashApplies(r.w.repo, side, marker);
      var (w1, _) := Query(r.w);
      TryTells(r.(w := w1), w1.repo.Apply(side, stash.value.oid));
      assert [] + stash.value.changes == stash.value.changes;
    }
  }

  // ----- the whole rollback -----

  /** What is left in the destination once it is cleared. */
  ghost function ClearedRepo(plan: Plan, repo: Repo, p: Refusals): Repo {
    if Seen(plan, repo, p) then repo else repo.Push(Destination, RollbackMarker)
  }

  ghost function RolledBack(o: Origin, repo: Repo, p: Refusals): Repo {
    var back := HeadsBack(o, ClearedRepo(o.plan, repo, p));
    Applied(Applied(back, Source, !p.source, SourceStash(o, back)), Destination, !p.destination, DestinationStash(o, back))
  }

  /** Finding the stashes. */
  lemma ResolveTells(o: Origin, w: World, j: Journal)
    requires Guides(j, o, w.repo)
    ensures var (w', source, destination, _) := ResolveBoth(w, j);
            var p := RefusedQueries(o.plan, w, j);
            && w'.repo == w.repo
            && source == (if SourceStash(o, w.repo).Some? && !p.source then Some(SourceStash(o, w.repo).value.oid) else None)
            && destination == (if DestinationStash(o, w.repo).Some? && !p.destination then Some(DestinationStash(o, w.repo).value.oid) else None)
            && (AtOriginalDestination(w', o.plan).1 <==> Seen(o.plan, w.repo, p))
  {
    LookupTells(w, j.sourceStashRef, j.sourceStashMarker, SourceStash(o, w.repo));
    var (w1, _, _) := Resolve(w, j.sourceStashRef, j.sourceStashMarker);
    LookupTells(w1, j.destinationStashRef, j.destinationStashMarker, DestinationStash(o, w.repo));
    var (w2, _, _) := Resolve(w1, j.destinationStashRef, j.destinationStashMarker);
    ProbesTell(o.plan, w2);
  }

  lemma ClearTells(o: Origin, w: World, p: Refusals)
    requires Begins(o) && Recoverable(o, w.repo) && (AtOriginalDestination(w, o.plan).1 <==> Seen(o.plan, w.repo, p))
    ensures var r := ClearDestination(w, o.plan);
            r.ok ==> r.w.repo == ClearedRepo(o.plan, w.repo, p)
    ensures var repo := ClearedRepo(o.plan, w.repo, p);
            && Wf(repo) && repo.branches == o.repo.branches
            && SourceStash(o, repo) == SourceStash(o, w.repo) && DestinationStash(o, repo) == DestinationStash(o, w.repo)
  {
    ProbesLeave(o.plan, w);
    var (w1, original, _) := AtOriginalDestination(w, o.plan);
    PushAsideTells(w1, original);
    PushKeeps(w.repo, Destination, RollbackMarker, SourceMarker(o.id));
    PushKeeps(w.repo, Destination, RollbackMarker, DestinationMarker(o.id));
  }

  lemma ReturnBothTells(o: Origin, j: Journal, r: Report, p: Refusals)
    requires Begins(o) && Guides(j, o, r.w.repo) && Wf(r.w.repo) && r.w.repo.branches == o.repo.branches
    ensures var source := if SourceStash(o, r.w.repo).Some? && !p.source then Some(SourceStash(o, r.w.repo).value.oid) else None;
            var destination := if DestinationStash(o, r.w.repo).Some? && !p.destination then Some(DestinationStash(o, r.w.repo).value.oid) else None;
            var r' := ReturnBoth(j, r, source, destination);
            var back := HeadsBack(o, r.w.repo);
            r'.ok ==> r.ok && r'.w.repo == Applied(Applied(back, Source, !p.source, SourceStash(o, back)), Destination, !p.destination, DestinationStash(o, back))
  {
    ReturnTells(o, j, r);
    var r2 := ReturnSource(j, ReturnDestination(j, r));
    if r2.ok {
      ApplyTells(r2, Source, !p.source, SourceMarker(o.id));
      var source := if SourceStash(o, r.w.repo).Some? && !p.source then Some(SourceStash(o, r.w.repo).value.oid) else None;
      var r3 := ApplyIfNeeded(r2, Source, source);
      if r3.ok { ApplyTells(r3, Destination, !p.destination, DestinationMarker(o.id)); } else { NotOkStays(r3, Destination); }
    } else {
      var source := if SourceStash(o, r.w.repo).Some? && !p.source then Some(SourceStash(o, r.w.repo).value.oid) else None;
      NotOkStays(r2, Source);
      NotOkStays(ApplyIfNeeded(r2, Source, source), Destination);
    }
  }

  lemma NotOkStays(r: Report, side: Side)
    requires !r.ok
    ensures forall ref :: !ApplyIfNeeded(r, side, ref).ok
  {
  }

  /** A rollback that reports success has left exactly this. */
  lemma SuccessTells(o: Origin, w: World, j: Journal)
    requires Begins(o) && Recoverable(o, w.repo) && Guides(j, o, w.repo)
    ensures var r := Rollback(o.plan, w, j);
            r.ok ==> r.w.repo == RolledBack(o, w.repo, RefusedQueries(o.plan, w, j))
  {
    var p := RefusedQueries(o.plan, w, j);
    ResolveTells(o, w, j);
    var (w1, _, _, _) := ResolveBoth(w, j);
    ClearTells(o, w1, p);
    var cleared := ClearDestination(w1, o.plan);
    if cleared.ok {
      ReturnBothTells(o, j, cleared, p);
    } else {
      ReturnNeedsCleared(o, j, w1, cleared);
    }
  }

  lemma ReturnNeedsCleared(o: Origin, j: Journal, w: World, r: Report)
    requires !r.ok
    ensures forall source, destination :: !ReturnBoth(j, r, source, destination).ok
  {
    forall source: Option<nat>, destination: Option<nat> ensures !ReturnBoth(j, r, source, destination).ok {
      var r2 := ReturnSource(j, ReturnDestination(j, r));
      NotOkStays(r2, Source);
      NotOkStays(ApplyIfNeeded(r2, Source, source), Destination);
    }
  }

  /** The changes of a worktree once its stash, if it was found, is applied to it. */
  function EndOf(changes: seq<Git.Patch>, found: bool, stash: Option<Stash>): seq<Git.Patch> {
    if found && stash.Some? && changes == [] then stash.value.changes else changes
  }

  lemma TreesAfter(o: Origin, repo: Repo, p: Refusals)
    requires Begins(o) && Recoverable(o, repo)
    ensures RolledBack(o, repo, p).source == Tree(o.repo.source.head, EndOf(repo.source.changes, !p.source, SourceStash(o, repo)))
    ensures RolledBack(o, repo, p).destination ==
            Tree(o.repo.destination.head,
                 EndOf(if Seen(o.plan, repo, p) then repo.destination.changes else [], !p.destination, DestinationStash(o, repo)))
  {
    var cleared := ClearedRepo(o.plan, repo, p);
    ClearedTrees(o, repo, p, cleared);
    AppliedTrees(o, cleared, p);
  }

  lemma ClearedTrees(o: Origin, repo: Repo, p: Refusals, cleared: Repo)
    requires Wf(repo) && cleared == ClearedRepo(o.plan, repo, p)
    ensures cleared.source == repo.source
    ensures cleared.destination.changes == if Seen(o.plan, repo, p) then repo.destination.changes else []
    ensures SourceStash(o, cleared) == SourceStash(o, repo) && DestinationStash(o, cleared) == DestinationStash(o, repo)
  {
    PushKeeps(repo, Destination, RollbackMarker, SourceMarker(o.id));
    PushKeeps(repo, Destination, RollbackMarker, DestinationMarker(o.id));
  }

  lemma AppliedTrees(o: Origin, cleared: Repo, p: Refusals)
    ensures var back := HeadsBack(o, cleared);
            var done := Applied(Applied(back, Source, !p.source, SourceStash(o, back)), Destination, !p.destination, DestinationStash(o, back));
            && done.source == Tree(o.repo.source.head, EndOf(cleared.source.changes, !p.source, SourceStash(o, cleared)))
            && done.destination == Tree(o.repo.destination.head, EndOf(cleared.destination.changes, !p.destination, DestinationStash(o, cleared)))
  {
  }

  lemma SourceEnds(o: Origin, repo: Repo, p: Refusals)
    requires SourceSafe(o, repo.source, SourceStash(o, repo))
    ensures EndOf(repo.source.changes, !p.source, SourceStash(o, repo)) == o.repo.source.changes <==> !SourceUnfound(o, repo, p)
  {
  }

  lemma SeenWhere(o: Origin, repo: Repo, p: Refusals)
    requires Begins(o) && DestinationSafe(o, repo.destination, DestinationStash(o, repo)) && repo.branches == o.repo.branches
    requires p.branch ==> !p.head && repo.HeadCommit(Destination) == Some(o.plan.destinationHead)
    ensures AtOriginal(o, repo) ==> (Seen(o.plan, repo, p) <==> !p.head && (p.branch ==> o.plan.destinationBranch.None?))
    ensures !AtOriginal(o, repo) ==> (Seen(o.plan, repo, p) <==> p.branch && o.plan.destinationBranch.None?)
  {
  }

  lemma DestinationEnds(o: Origin, repo: Repo, p: Refusals, seen: bool)
    requires DestinationSafe(o, repo.destination, DestinationStash(o, repo))
    requires seen <==> if AtOriginal(o, repo) then !p.head && (p.branch ==> o.plan.destinationBranch.None?) else p.branch && o.plan.destinationBranch.None?
    ensures EndOf(if seen then repo.destination.changes else [], !p.destination, DestinationStash(o, repo)) == o.repo.destination.changes <==>
            !OwnWorkTaken(o, repo, p) && !DestinationUnfound(o, repo, p) && !LeftoverKept(o, repo, p)
  {
  }

  /** Main result on reports.  A rollback that reports success has restored both worktrees if and only if it was not
      misled: by a lookup or a probe that was refused in one of the four states above, all of which are settled before
      the rollback begins. */
  lemma ReportIsRightExactlyWhen(o: Origin, w: World, j: Journal)
    requires Begins(o) && Recoverable(o, w.repo) && Guides(j, o, w.repo)
    ensures var r := Rollback(o.plan, w, j);
            r.ok ==> (Restored(o, r.w.repo) <==> !Misled(o, w.repo, RefusedQueries(o.plan, w, j)))
  {
    var p := RefusedQueries(o.plan, w, j);
    SuccessTells(o, w, j);
    TreesAfter(o, w.repo, p);
    SourceEnds(o, w.repo, p);
    SeenWhere(o, w.repo, p);
    DestinationEnds(o, w.repo, p, Seen(o.plan, w.repo, p));
  }
}
