/** What survives an interrupted handoff, and what a rollback makes of it. */
module HandoffRecovery {
  import opened Options
  import opened Faults
  import opened Git
  import opened HandoffRepository
  import opened GitHandoffCoordinator

  /** A handoff about to start: its plan, the repository it starts from and its random marker id. */
  datatype Origin = Origin(plan: Plan, repo: Repo, id: nat)

  function ParkedHead(plan: Plan): Head {
    if plan.direction.LocalToWorktree? && plan.fallbackBranch.Some? then OnBranch(plan.fallbackBranch.value)
    else Detached(plan.sourceHead)
  }

  /** The plan describes this repository: what a successful `Inspect` guarantees. */
  ghost predicate Fits(plan: Plan, repo: Repo) {
    && Wf(repo)
    && repo.source.head == OnBranch(plan.sourceBranch)
    && repo.HeadCommit(Source) == Some(plan.sourceHead)
    && repo.HeadCommit(Destination) == Some(plan.destinationHead)
    && repo.destination.head == (if plan.destinationBranch.Some? then OnBranch(plan.destinationBranch.value) else Detached(plan.destinationHead))
    && (plan.direction.LocalToWorktree? ==> plan.fallbackBranch.Some? && plan.fallbackBranch.value != plan.sourceBranch)
    && (plan.direction.WorktreeToLocal? ==> repo.destination.changes == [])
  }

  lemma InspectFits(w: World, direction: Direction, defaultBranch: Option<Branch>)
    requires Wf(w.repo)
    ensures var (w', r) := Inspect(w, direction, defaultBranch);
            w'.repo == w.repo && w'.row == w.row && (r.Ok? ==> Fits(r.value, w.repo) && r.value.direction == direction)
  {
  }

  /** The markers are new: no stash of the original list carries them. */
  ghost predicate Begins(o: Origin) {
    && Fits(o.plan, o.repo)
    && FindMarker(o.repo.stashes, SourceMarker(o.id)) == None
    && FindMarker(o.repo.stashes, DestinationMarker(o.id)) == None
  }

  function SourceStash(o: Origin, repo: Repo): Option<Stash> { FindMarker(repo.stashes, SourceMarker(o.id)) }

  function DestinationStash(o: Origin, repo: Repo): Option<Stash> { FindMarker(repo.stashes, DestinationMarker(o.id)) }

  /** The old stash list is still there, below what the handoff has pushed. */
  ghost predicate Extends(repo: Repo, base: Repo) {
    && |base.stashes| <= |repo.stashes|
    && repo.stashes[|repo.stashes| - |base.stashes|..] == base.stashes
  }

  /** The source worktree, given the stash that holds its work, if any. */
  ghost predicate SourceSafe(o: Origin, tree: Tree, held: Option<Stash>) {
    && (tree.head == o.repo.source.head || (tree.head == ParkedHead(o.plan) && (tree.head.OnBranch? ==> tree.head != o.repo.destination.head)))
    && match held
       case None => tree.changes == o.repo.source.changes
       case Some(stash) =>
         && stash.changes == o.repo.source.changes
         && (tree.changes == [] || tree.changes == o.repo.source.changes)
  }

  ghost predicate DestinationSafe(o: Origin, tree: Tree, held: Option<Stash>) {
    && (tree.head == o.repo.destination.head || tree.head == OnBranch(o.plan.sourceBranch))
    && match held
       case None => if tree.head == o.repo.destination.head then tree.changes == o.repo.destination.changes else o.repo.destination.changes == []
       case Some(stash) =>
         && stash.changes == o.repo.destination.changes
         && (tree.head == o.repo.destination.head ==> tree.changes == [] || tree.changes == o.repo.destination.changes)
  }

  /** Everything a rollback needs is still in the repository: each worktree's original work is either
      in place or held by a stash that the journal or its marker leads to. */
  ghost predicate Recoverable(o: Origin, repo: Repo) {
    && Wf(repo) && repo.branches == o.repo.branches && Extends(repo, o.repo)
    && SourceSafe(o, repo.source, SourceStash(o, repo))
    && DestinationSafe(o, repo.destination, DestinationStash(o, repo))
  }

  ghost predicate Restored(o: Origin, repo: Repo) {
    repo.source == o.repo.source && repo.destination == o.repo.destination
  }

  /** The journal names this handoff, and every stash id it holds is the right one. */
  ghost predicate Guides(j: Journal, o: Origin, repo: Repo) {
    && j.sourceHead == Some(o.plan.sourceHead) && j.sourceBranch == Some(o.plan.sourceBranch)
    && j.destinationHead == Some(o.plan.destinationHead) && j.destinationBranch == o.plan.destinationBranch
    && j.sourceStashMarker == Some(SourceMarker(o.id))
    && (o.plan.direction.LocalToWorktree? ==> j.destinationStashMarker == Some(DestinationMarker(o.id)))
    && (o.plan.direction.WorktreeToLocal? ==> j.destinationStashMarker == None && DestinationStash(o, repo) == None)
    && (j.sourceStashRef.Some? ==> SourceStash(o, repo).Some? && j.sourceStashRef.value == SourceStash(o, repo).value.oid)
    && (j.destinationStashRef.Some? ==> DestinationStash(o, repo).Some? && j.destinationStashRef.value == DestinationStash(o, repo).value.oid)
  }

  // ----- single commands -----

  lemma PushKeeps(repo: Repo, side: Side, marker: Marker, m: Marker)
    requires Wf(repo)
    ensures var next := repo.Push(side, marker);
            && Wf(next) && Extends(next, repo)
            && (m != marker ==> FindMarker(next.stashes, m) == FindMarker(repo.stashes, m))
            && (repo.Dirty(side) ==> FindMarker(next.stashes, marker) == Some(Stash(repo.nextOid, marker, repo.At(side).changes)))
            && next.At(side) == repo.At(side).(changes := [])
            && next.At(Other(side)) == repo.At(Other(side))
  {
    var next := repo.Push(side, marker);
    if repo.Dirty(side) {
      assert next.stashes[1..] == repo.stashes;
      assert next.stashes[|next.stashes| - |repo.stashes|..] == repo.stashes;
    } else {
      assert next.stashes[0..] == repo.stashes;
    }
  }

  lemma ExtendsIsTransitive(a: Repo, b: Repo, c: Repo)
    requires Extends(a, b) && Extends(b, c)
    ensures Extends(a, c)
  {
    assert a.stashes[|a.stashes| - |c.stashes|..] == a.stashes[|a.stashes| - |b.stashes|..][|b.stashes| - |c.stashes|..];
  }

  lemma MarkedStashApplies(repo: Repo, side: Side, marker: Marker)
    requires Wf(repo) && FindMarker(repo.stashes, marker).Some?
    ensures var stash := FindMarker(repo.stashes, marker).value;
            repo.Apply(side, stash.oid) == Some(repo.With(side, repo.At(side).(changes := repo.At(side).changes + stash.changes)))
  {
    FoundMarkerIsListed(repo.stashes, marker);
    OidFindsItsEntry(repo.stashes, repo.nextOid, FindMarker(repo.stashes, marker).value);
  }

  lemma DestinationMoves(o: Origin, repo: Repo, tree: Tree)
    requires Recoverable(o, repo) && DestinationSafe(o, tree, DestinationStash(o, repo))
    requires tree.head.OnBranch? ==> tree.head.branch in repo.branches && tree.head != repo.source.head
    ensures Recoverable(o, repo.With(Destination, tree))
  {
    assert repo.With(Destination, tree).stashes == repo.stashes;
  }

  lemma SourceMoves(o: Origin, repo: Repo, tree: Tree)
    requires Recoverable(o, repo) && SourceSafe(o, tree, SourceStash(o, repo))
    requires tree.head.OnBranch? ==> tree.head.branch in repo.branches && tree.head != repo.destination.head
    ensures Recoverable(o, repo.With(Source, tree))
  {
    assert repo.With(Source, tree).stashes == repo.stashes;
  }

  /** A mutating command takes its whole effect or none; a dead process has none. */
  lemma MutateIsAtomic(w: World, effect: Option<Repo>)
    ensures var (w', ok) := Mutate(w, effect);
            && w'.row == w.row
            && (if ok then effect.Some? && w'.repo == effect.value && !w.env.crashed && !w'.env.crashed else w'.repo == w.repo)
            && (w.env.crashed ==> w'.env.crashed)
  {
  }

  // ----- rollback, command by command -----

  /** Recoverable, with nothing in the destination that returning it would carry along. */
  ghost predicate Cleared(o: Origin, repo: Repo) {
    && Recoverable(o, repo)
    && (repo.destination.head == o.repo.destination.head || repo.destination.changes == [])
  }

  /** Pushing the destination aside disturbs neither captured stash. */
  lemma PushedAside(o: Origin, repo: Repo)
    requires Begins(o) && Recoverable(o, repo)
    ensures var next := repo.Push(Destination, RollbackMarker);
            && Extends(next, repo)
            && SourceStash(o, next) == SourceStash(o, repo) && DestinationStash(o, next) == DestinationStash(o, repo)
            && (repo.destination.head != o.repo.destination.head ==> Cleared(o, next))
  {
    var next := repo.Push(Destination, RollbackMarker);
    PushKeeps(repo, Destination, RollbackMarker, SourceMarker(o.id));
    PushKeeps(repo, Destination, RollbackMarker, DestinationMarker(o.id));
    ExtendsIsTransitive(next, repo, o.repo);
  }

  lemma PushAsideKeeps(o: Origin, w: World, original: bool)
    requires Begins(o) && Recoverable(o, w.repo)
    ensures var r := PushAside(w, original);
            && r.w.row == w.row
            && (r.w.repo == w.repo || r.w.repo == w.repo.Push(Destination, RollbackMarker))
            && (r.sighted && r.w.env.crashed ==> r.w.repo == w.repo)
            && (r.sighted && !r.w.env.crashed && (original <==> w.repo.destination.head == o.repo.destination.head) ==> r.ok && Cleared(o, r.w.repo))
  {
    PushedAside(o, w.repo);
    var (w1, statusOk) := Query(w);
    MutateIsAtomic(w1, Some(w.repo.Push(Destination, RollbackMarker)));
  }

  lemma ClearDestinationKeeps(o: Origin, w: World)
    requires Begins(o) && Recoverable(o, w.repo)
    ensures var r := ClearDestination(w, o.plan);
            && r.w.row == w.row && (r.ok ==> !w.env.crashed)
            && Extends(r.w.repo, w.repo)
            && SourceStash(o, r.w.repo) == SourceStash(o, w.repo) && DestinationStash(o, r.w.repo) == DestinationStash(o, w.repo)
            && (r.sighted ==> if r.w.env.crashed then Recoverable(o, r.w.repo) else r.ok && Cleared(o, r.w.repo))
  {
    assert Extends(w.repo, w.repo) by { assert w.repo.stashes[0..] == w.repo.stashes; }
    AtOriginalAnswers(o, w);
    var (w1, original, _) := AtOriginalDestination(w, o.plan);
    PushAsideKeeps(o, w1, original);
    PushedAside(o, w.repo);
    DeadStaysDead(w, o.plan);
  }

  /** Once crashed, the clearing step does nothing further. */
  lemma DeadStaysDead(w: World, plan: Plan)
    ensures var (w1, original, _) := AtOriginalDestination(w, plan);
            w1.env.crashed ==> PushAside(w1, original).w == w1
  {
  }

  lemma AtOriginalAnswers(o: Origin, w: World)
    requires Begins(o) && Recoverable(o, w.repo)
    ensures var (w', original, trusted) := AtOriginalDestination(w, o.plan);
            && w'.repo == w.repo && w'.row == w.row
            && (trusted && !w'.env.crashed ==> (original <==> w.repo.destination.head == o.repo.destination.head))
  {
  }

  lemma ReturnDestinationKeeps(o: Origin, j: Journal, r: Report)
    requires Begins(o) && Guides(j, o, r.w.repo)
    requires if r.w.env.crashed then Recoverable(o, r.w.repo) else Cleared(o, r.w.repo)
    ensures var r' := ReturnDestination(j, r);
            && r'.sighted == r.sighted && r'.w.row == r.w.row && r'.w.repo.stashes == r.w.repo.stashes
            && Recoverable(o, r'.w.repo)
            && (r'.ok ==> r.ok && r'.w.repo.destination.head == o.repo.destination.head)
  {
    var repo := r.w.repo;
    var tree := repo.destination.(head := o.repo.destination.head);
    var effect := if j.destinationBranch.Some? then repo.CheckoutBranch(Destination, j.destinationBranch.value)
                  else repo.CheckoutCommit(Destination, j.destinationHead.value);
    assert effect.Some? ==> effect.value == repo.With(Destination, tree);
    MutateIsAtomic(r.w, effect);
    if !r.w.env.crashed && effect.Some? {
      DestinationMoves(o, repo, tree);
    }
  }

  lemma ReturnSourceKeeps(o: Origin, j: Journal, r: Report)
    requires Begins(o) && Guides(j, o, r.w.repo) && Recoverable(o, r.w.repo)
    ensures var r' := ReturnSource(j, r);
            && r'.sighted == r.sighted && r'.w.row == r.w.row && r'.w.repo.stashes == r.w.repo.stashes
            && Recoverable(o, r'.w.repo) && r'.w.repo.destination == r.w.repo.destination
            && (r'.ok ==> r.ok && r'.w.repo.source.head == o.repo.source.head)
  {
    var repo := r.w.repo;
    var effect := repo.CheckoutBranch(Source, o.plan.sourceBranch);
    var tree := repo.source.(head := o.repo.source.head);
    assert effect.Some? ==> effect.value == repo.With(Source, tree);
    MutateIsAtomic(r.w, effect);
    if effect.Some? { SourceMoves(o, repo, tree); }
  }

  lemma ApplySourceKeeps(o: Origin, r: Report, ref: Option<nat>)
    requires Begins(o) && Recoverable(o, r.w.repo)
    requires ref.Some? ==> SourceStash(o, r.w.repo).Some? && ref.value == SourceStash(o, r.w.repo).value.oid
    ensures var r' := ApplyIfNeeded(r, Source, ref);
            && r'.sighted == r.sighted && r'.w.row == r.w.row && r'.w.repo.stashes == r.w.repo.stashes
            && Recoverable(o, r'.w.repo) && r'.w.repo.destination == r.w.repo.destination && r'.w.repo.source.head == r.w.repo.source.head
            && (r'.ok ==> r.ok)
            && (r'.ok && (ref.Some? || SourceStash(o, r.w.repo).None?) ==> r'.w.repo.source.changes == o.repo.source.changes)
  {
    if ref.Some? {
      var (w1, _) := Query(r.w);
      var tree := r.w.repo.source.(changes := r.w.repo.source.changes + SourceStash(o, r.w.repo).value.changes);
      MarkedStashApplies(r.w.repo, Source, SourceMarker(o.id));
      MutateIsAtomic(w1, Some(r.w.repo.With(Source, tree)));
      if !r.w.repo.Dirty(Source) {
        assert tree.changes == o.repo.source.changes;
        SourceMoves(o, r.w.repo, tree);
      }
    }
  }

  lemma ApplyDestinationKeeps(o: Origin, r: Report, ref: Option<nat>)
    requires Begins(o) && Recoverable(o, r.w.repo)
    requires ref.Some? ==> DestinationStash(o, r.w.repo).Some? && ref.value == DestinationStash(o, r.w.repo).value.oid
    ensures var r' := ApplyIfNeeded(r, Destination, ref);
            && r'.sighted == r.sighted && r'.w.row == r.w.row && r'.w.repo.stashes == r.w.repo.stashes
            && Recoverable(o, r'.w.repo) && r'.w.repo.source == r.w.repo.source && r'.w.repo.destination.head == r.w.repo.destination.head
            && (r'.ok ==> r.ok)
            && (r'.ok && r.w.repo.destination.head == o.repo.destination.head && (ref.Some? || DestinationStash(o, r.w.repo).None?) ==>
                  r'.w.repo.destination.changes == o.repo.destination.changes)
  {
    if ref.Some? {
      var (w1, _) := Query(r.w);
      var tree := r.w.repo.destination.(changes := r.w.repo.destination.changes + DestinationStash(o, r.w.repo).value.changes);
      MarkedStashApplies(r.w.repo, Destination, DestinationMarker(o.id));
      MutateIsAtomic(w1, Some(r.w.repo.With(Destination, tree)));
      if !r.w.repo.Dirty(Destination) {
        assert tree.changes == o.repo.destination.changes;
        DestinationMoves(o, r.w.repo, tree);
      }
    }
  }

  lemma ResolveFinds(w: World, ref: Option<nat>, marker: Option<Marker>, stash: Option<Stash>)
    requires marker.Some? ==> stash == FindMarker(w.repo.stashes, marker.value)
    requires ref.Some? ==> stash.Some? && ref.value == stash.value.oid
    requires marker.None? ==> stash.None?
    ensures var (w', r, found) := Resolve(w, ref, marker);
            && w'.repo == w.repo && w'.row == w.row && (w.env.crashed ==> w'.env.crashed)
            && (r.Some? ==> stash.Some? && r.value == stash.value.oid)
            && (found && !w'.env.crashed ==> (r.Some? <==> stash.Some?))
  {
  }

  // ----- rollback as a whole -----

  ghost predicate Trusted(r: Report) { r.sighted && r.found }

  lemma TryKeepsStashes(r: Report, effect: Option<Repo>)
    requires effect.Some? ==> effect.value.stashes == r.w.repo.stashes
    ensures var r' := Try(r, effect);
            r'.w.repo.stashes == r.w.repo.stashes && r'.w.row == r.w.row && r'.sighted == r.sighted
  {
  }

  lemma ApplyIfNeededKeepsStashes(r: Report, side: Side, ref: Option<nat>)
    ensures var r' := ApplyIfNeeded(r, side, ref);
            r'.w.repo.stashes == r.w.repo.stashes && r'.w.row == r.w.row && r'.sighted == r.sighted
  {
    if ref.Some? {
      var (w1, _) := Query(r.w);
      TryKeepsStashes(r.(w := w1), w1.repo.Apply(side, ref.value));
    }
  }

  lemma LaterStepsKeepStashes(j: Journal, r: Report, source: Option<nat>, destination: Option<nat>)
    ensures var r' := ReturnBoth(j, r, source, destination);
            r'.w.repo.stashes == r.w.repo.stashes && r'.w.row == r.w.row && r'.sighted == r.sighted
  {
    var r1 := ReturnDestination(j, r);
    if j.destinationBranch.Some? {
      TryKeepsStashes(r, r.w.repo.CheckoutBranch(Destination, j.destinationBranch.value));
    } else if j.destinationHead.Some? {
      TryKeepsStashes(r, r.w.repo.CheckoutCommit(Destination, j.destinationHead.value));
    }
    if j.sourceBranch.Some? {
      TryKeepsStashes(r1, r1.w.repo.CheckoutBranch(Source, j.sourceBranch.value));
    }
    var r2 := ReturnSource(j, r1);
    ApplyIfNeededKeepsStashes(r2, Source, source);
    ApplyIfNeededKeepsStashes(ApplyIfNeeded(r2, Source, source), Destination, destination);
  }

  /** A stash reference and the stash it has to denote. */
  ghost predicate Names(ref: Option<nat>, stash: Option<Stash>) {
    ref.Some? ==> stash.Some? && ref.value == stash.value.oid
  }

  lemma ResolveBothFinds(o: Origin, w: World, j: Journal)
    requires Guides(j, o, w.repo)
    ensures var (w', source, destination, found) := ResolveBoth(w, j);
            && w'.repo == w.repo && w'.row == w.row
            && Names(source, SourceStash(o, w.repo)) && Names(destination, DestinationStash(o, w.repo))
            && (found && !w'.env.crashed ==> (source.Some? <==> SourceStash(o, w.repo).Some?) && (destination.Some? <==> DestinationStash(o, w.repo).Some?))
  {
    ResolveFinds(w, j.sourceStashRef, j.sourceStashMarker, SourceStash(o, w.repo));
    var (w1, _, _) := Resolve(w, j.sourceStashRef, j.sourceStashMarker);
    ResolveFinds(w1, j.destinationStashRef, j.destinationStashMarker, DestinationStash(o, w.repo));
  }

  lemma ReturnBothRestores(o: Origin, j: Journal, r: Report, source: Option<nat>, destination: Option<nat>)
    requires Begins(o) && Guides(j, o, r.w.repo)
    requires if r.w.env.crashed then Recoverable(o, r.w.repo) else Cleared(o, r.w.repo)
    requires source.Some? ==> SourceStash(o, r.w.repo).Some? && source.value == SourceStash(o, r.w.repo).value.oid
    requires destination.Some? ==> DestinationStash(o, r.w.repo).Some? && destination.value == DestinationStash(o, r.w.repo).value.oid
    ensures var r' := ReturnBoth(j, r, source, destination);
            && Recoverable(o, r'.w.repo)
            && (r'.ok ==> r.ok)
            && (r'.ok && (source.Some? || SourceStash(o, r.w.repo).None?) && (destination.Some? || DestinationStash(o, r.w.repo).None?) ==>
                  Restored(o, r'.w.repo))
  {
    var r1 := ReturnDestination(j, r);
    ReturnDestinationKeeps(o, j, r);
    var r2 := ReturnSource(j, r1);
    ReturnSourceKeeps(o, j, r1);
    var r3 := ApplyIfNeeded(r2, Source, source);
    ApplySourceKeeps(o, r2, source);
    ApplyDestinationKeeps(o, r3, destination);
  }

  /** What a rollback owes, given the world it started in. */
  ghost predicate Discharges(o: Origin, w: World, r: Report) {
    && r.w.row == w.row
    && Extends(r.w.repo, w.repo)
    && SourceStash(o, r.w.repo) == SourceStash(o, w.repo) && DestinationStash(o, r.w.repo) == DestinationStash(o, w.repo)
    && (r.sighted ==> Recoverable(o, r.w.repo))
    && (r.ok && r.sighted && r.found ==> Restored(o, r.w.repo))
  }

  lemma ReturnBothDischarges(o: Origin, w: World, j: Journal, cleared: Report, source: Option<nat>, destination: Option<nat>, found: bool)
    requires Begins(o) && Guides(j, o, w.repo)
    requires cleared.w.row == w.row && (cleared.ok ==> !w.env.crashed) && Extends(cleared.w.repo, w.repo)
    requires SourceStash(o, cleared.w.repo) == SourceStash(o, w.repo) && DestinationStash(o, cleared.w.repo) == DestinationStash(o, w.repo)
    requires cleared.sighted ==> if cleared.w.env.crashed then Recoverable(o, cleared.w.repo) else Cleared(o, cleared.w.repo)
    requires Names(source, SourceStash(o, w.repo)) && Names(destination, DestinationStash(o, w.repo))
    requires found && !w.env.crashed ==> (source.Some? <==> SourceStash(o, w.repo).Some?) && (destination.Some? <==> DestinationStash(o, w.repo).Some?)
    ensures Discharges(o, w, ReturnBoth(j, cleared, source, destination).(found := found))
  {
    LaterStepsKeepStashes(j, cleared, source, destination);
    if cleared.sighted { ReturnBothRestores(o, j, cleared, source, destination); }
  }

  /** Rollback from any recoverable state, with a journal that guides it and any verdicts whatsoever:
      the stash list is only extended and both captured stashes stay findable; if its probes were not
      refused, the state stays recoverable wherever the rollback dies or fails; and if it also reports
      success, both worktrees are back on their original branch or commit with their original work. */
  lemma RollbackRestores(o: Origin, w: World, j: Journal)
    requires Begins(o) && Recoverable(o, w.repo) && Guides(j, o, w.repo)
    ensures Discharges(o, w, Rollback(o.plan, w, j))
  {
    ResolveBothFinds(o, w, j);
    var (w1, source, destination, found) := ResolveBoth(w, j);
    var cleared := ClearDestination(w1, o.plan);
    ClearDestinationKeeps(o, w1);
    ReturnBothDischarges(o, w1, j, cleared, source, destination, found);
  }

  // ----- rollback when nothing but a crash can stop it -----

  /** A step that only a crash can have kept from succeeding. */
  ghost predicate OkUnlessCrashed(r: Report, calm: bool) {
    Benign(r.w.env, calm) && r.sighted && (r.w.env.crashed || r.ok)
  }

  lemma BenignMutate(w: World, effect: Option<Repo>, calm: bool)
    requires Benign(w.env, calm)
    ensures var (w', ok) := Mutate(w, effect);
            && Benign(w'.env, calm) && (w.env.crashed ==> w'.env.crashed)
            && (effect.Some? ==> (ok <==> !w'.env.crashed))
  {
    BenignAttempt(w.env, calm);
  }

  lemma BenignTry(r: Report, effect: Option<Repo>, calm: bool)
    requires OkUnlessCrashed(r, calm) && (r.w.env.crashed || effect.Some?)
    ensures OkUnlessCrashed(Try(r, effect), calm)
  {
    BenignMutate(r.w, effect, calm);
  }

  lemma BenignResolve(w: World, ref: Option<nat>, marker: Option<Marker>, calm: bool)
    requires Benign(w.env, calm)
    ensures var (w', _, found) := Resolve(w, ref, marker);
            Benign(w'.env, calm) && found && (w.env.crashed ==> w'.env.crashed)
  {
    BenignAttempt(w.env, calm);
  }

  lemma BenignClear(o: Origin, w: World, calm: bool)
    requires Benign(w.env, calm)
    ensures OkUnlessCrashed(ClearDestination(w, o.plan), calm)
  {
    BenignAttempt(w.env, calm);
    var (w1, _) := Query(w);
    BenignAttempt(w1.env, calm);
    var (w2, original, trusted) := AtOriginalDestination(w, o.plan);
    assert Benign(w2.env, calm) && trusted;
    BenignPushAside(w2, original, calm);
  }

  lemma BenignPushAside(w: World, original: bool, calm: bool)
    requires Benign(w.env, calm)
    ensures OkUnlessCrashed(PushAside(w, original), calm)
  {
    BenignAttempt(w.env, calm);
    var (w1, _) := Query(w);
    BenignMutate(w1, Some(w1.repo.Push(Destination, RollbackMarker)), calm);
  }

  /** Neither checkout of the rollback asks for a branch that the other worktree holds. */
  lemma BenignReturn(o: Origin, j: Journal, r: Report, calm: bool)
    requires Begins(o) && Guides(j, o, r.w.repo) && OkUnlessCrashed(r, calm)
    requires if r.w.env.crashed then Recoverable(o, r.w.repo) else Cleared(o, r.w.repo)
    ensures OkUnlessCrashed(ReturnDestination(j, r), calm)
    ensures OkUnlessCrashed(ReturnSource(j, ReturnDestination(j, r)), calm)
  {
    ReturnDestinationKeeps(o, j, r);
    var effect := if j.destinationBranch.Some? then r.w.repo.CheckoutBranch(Destination, j.destinationBranch.value)
                  else r.w.repo.CheckoutCommit(Destination, j.destinationHead.value);
    assert effect.Some?;
    BenignTry(r, effect, calm);
    var r1 := ReturnDestination(j, r);
    BenignTry(r1, r1.w.repo.CheckoutBranch(Source, o.plan.sourceBranch), calm);
  }

  lemma BenignApply(r: Report, side: Side, ref: Option<nat>, calm: bool)
    requires OkUnlessCrashed(r, calm) && (ref.Some? ==> r.w.repo.Apply(side, ref.value).Some?)
    ensures OkUnlessCrashed(ApplyIfNeeded(r, side, ref), calm)
  {
    BenignAttempt(r.w.env, calm);
    var (w1, ok) := Query(r.w);
    BenignAttempt(w1.env, calm);
    if ok && ref.Some? { BenignTry(r.(w := w1), w1.repo.Apply(side, ref.value), calm); }
  }

  /** With no command refused, a rollback either dies part-way, leaving a state to resume from, or
      succeeds and restores; with no crash ahead it succeeds. */
  lemma BenignRollback(o: Origin, w: World, j: Journal, calm: bool)
    requires Begins(o) && Recoverable(o, w.repo) && Guides(j, o, w.repo) && Benign(w.env, calm)
    ensures var r := Rollback(o.plan, w, j);
            && OkUnlessCrashed(r, calm) && r.found && (w.env.crashed ==> r.w.env.crashed)
            && Recoverable(o, r.w.repo) && (!r.w.env.crashed ==> Restored(o, r.w.repo))
            && (calm ==> r.ok && Restored(o, r.w.repo))
  {
    RollbackRestores(o, w, j);
    ResolveBothFinds(o, w, j);
    BenignResolve(w, j.sourceStashRef, j.sourceStashMarker, calm);
    var (wa, _, _) := Resolve(w, j.sourceStashRef, j.sourceStashMarker);
    BenignResolve(wa, j.destinationStashRef, j.destinationStashMarker, calm);
    var (w1, source, destination, found) := ResolveBoth(w, j);
    BenignClear(o, w1, calm);
    ClearDestinationKeeps(o, w1);
    BenignReturnBoth(o, j, ClearDestination(w1, o.plan), source, destination, calm);
    ReturnBothRestores(o, j, ClearDestination(w1, o.plan), source, destination);
  }

  lemma BenignReturnBoth(o: Origin, j: Journal, r: Report, source: Option<nat>, destination: Option<nat>, calm: bool)
    requires Begins(o) && Guides(j, o, r.w.repo) && OkUnlessCrashed(r, calm)
    requires if r.w.env.crashed then Recoverable(o, r.w.repo) else Cleared(o, r.w.repo)
    requires Names(source, SourceStash(o, r.w.repo)) && Names(destination, DestinationStash(o, r.w.repo))
    ensures OkUnlessCrashed(ReturnBoth(j, r, source, destination), calm)
  {
    BenignReturn(o, j, r, calm);
    ReturnDestinationKeeps(o, j, r);
    ReturnSourceKeeps(o, j, ReturnDestination(j, r));
    var r2 := ReturnSource(j, ReturnDestination(j, r));
    if source.Some? { MarkedStashApplies(r2.w.repo, Source, SourceMarker(o.id)); }
    BenignApply(r2, Source, source, calm);
    ApplySourceKeeps(o, r2, source);
    var r3 := ApplyIfNeeded(r2, Source, source);
    if destination.Some? { MarkedStashApplies(r3.w.repo, Destination, DestinationMarker(o.id)); }
    BenignApply(r3, Destination, destination, calm);
  }

  /** A rollback of what is already rolled back changes nothing: no worktree, no stash, and no captured
      change is applied a second time. */
  lemma RollbackAgainChangesNothing(o: Origin, w: World, j: Journal, calm: bool)
    requires Begins(o) && Recoverable(o, w.repo) && Restored(o, w.repo) && Guides(j, o, w.repo) && Benign(w.env, calm)
    ensures Rollback(o.plan, w, j).w.repo == w.repo
  {
    ResolveBothFinds(o, w, j);
    BenignResolve(w, j.sourceStashRef, j.sourceStashMarker, calm);
    var (wa, _, _) := Resolve(w, j.sourceStashRef, j.sourceStashMarker);
    BenignResolve(wa, j.destinationStashRef, j.destinationStashMarker, calm);
    var (w1, source, destination, found) := ResolveBoth(w, j);
    BenignClear(o, w1, calm);
    ClearOfOriginal(o, w1, calm);
    var cleared := ClearDestination(w1, o.plan);
    ReturnOfRestored(o, j, cleared, source, destination);
  }

  lemma ClearOfOriginal(o: Origin, w: World, calm: bool)
    requires Begins(o) && Recoverable(o, w.repo) && Restored(o, w.repo) && Benign(w.env, calm)
    ensures ClearDestination(w, o.plan).w.repo == w.repo
  {
    AtOriginalAnswers(o, w);
    BenignAttempt(w.env, calm);
    var (w1, _) := Query(w);
    BenignAttempt(w1.env, calm);
    var (w2, original, trusted) := AtOriginalDestination(w, o.plan);
    assert trusted && (original || w2.env.crashed);
  }

  lemma ReturnOfRestored(o: Origin, j: Journal, r: Report, source: Option<nat>, destination: Option<nat>)
    requires Begins(o) && Recoverable(o, r.w.repo) && Restored(o, r.w.repo) && Guides(j, o, r.w.repo)
    requires Names(source, SourceStash(o, r.w.repo)) && Names(destination, DestinationStash(o, r.w.repo))
    ensures ReturnBoth(j, r, source, destination).w.repo == r.w.repo
  {
    var r1 := ReturnDestination(j, r);
    assert r1.w.repo == r.w.repo;
    var r2 := ReturnSource(j, r1);
    assert r2.w.repo == r.w.repo;
    if source.Some? {
      MarkedStashApplies(r.w.repo, Source, SourceMarker(o.id));
      assert !r.w.repo.Dirty(Source) ==> r.w.repo.source.changes + SourceStash(o, r.w.repo).value.changes == r.w.repo.source.changes;
    }
    ApplyToRestored(r2, Source, source);
    var r3 := ApplyIfNeeded(r2, Source, source);
    if destination.Some? {
      MarkedStashApplies(r.w.repo, Destination, DestinationMarker(o.id));
      assert !r.w.repo.Dirty(Destination) ==> r.w.repo.destination.changes + DestinationStash(o, r.w.repo).value.changes == r.w.repo.destination.changes;
    }
    ApplyToRestored(r3, Destination, destination);
  }

  lemma ApplyToRestored(r: Report, side: Side, ref: Option<nat>)
    requires ref.Some? && !r.w.repo.Dirty(side) ==> r.w.repo.Apply(side, ref.value) == Some(r.w.repo)
    ensures ApplyIfNeeded(r, side, ref).w.repo == r.w.repo
  {
  }

  // ----- why the probes have to be trusted -----

  const BLIND_PLAN := Plan(LocalToWorktree, "topic", 1, None, 2, Some("main"))
  const BLIND_REPO := Repo(map["topic" := 1, "main" := 0], Tree(OnBranch("topic"), []), Tree(Detached(2), [Git.Patch(7)]), [], 0)
  const BLIND_WORLD := World(BLIND_REPO, NewRow(Request("thread", LocalToWorktree, None)), Env([Proceed, Proceed, Refuse], false))

  lemma BlindRollback()
    ensures var r := Rollback(BLIND_PLAN, BLIND_WORLD, CreateJournal(BLIND_PLAN, 3));
            r.ok && !r.w.env.crashed && r.found && !r.sighted && r.w.repo.destination.changes == []
  {
    var w, j := BLIND_WORLD, CreateJournal(BLIND_PLAN, 3);
    assert w.env.verdicts[1..] == [Proceed, Refuse];
    assert w.env.verdicts[1..][1..] == [Refuse];
    assert ResolveBoth(w, j) == (w.(env := Env([Refuse], false)), None, None, true);
    assert ClearDestination(w.(env := Env([Refuse], false)), BLIND_PLAN).w.repo.destination == Tree(Detached(2), []);
  }

  /** The report of a rollback is only as good as its probes: here reading the destination's head is
      refused once, the destination's own work is stashed away as if the transfer had left it there,
      and the rollback still reports success. */
  lemma BlindProbeMisreports()
    ensures exists o: Origin, w: World, j: Journal ::
              && Begins(o) && Recoverable(o, w.repo) && Guides(j, o, w.repo)
              && var r := Rollback(o.plan, w, j);
                 r.ok && !r.w.env.crashed && r.found && !r.sighted && !Restored(o, r.w.repo)
  {
    var o := Origin(BLIND_PLAN, BLIND_REPO, 3);
    var j := CreateJournal(BLIND_PLAN, 3);
    BlindRollback();
    assert Begins(o) && Recoverable(o, BLIND_WORLD.repo) && Guides(j, o, BLIND_WORLD.repo);
    assert !Restored(o, Rollback(o.plan, BLIND_WORLD, j).w.repo);
  }
}
