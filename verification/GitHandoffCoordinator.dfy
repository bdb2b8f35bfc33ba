/** The Git side of a handoff: `Inspect` plans it, `Transfer` moves a branch and its uncommitted work
    from one worktree to the other, `Rollback` undoes any prefix of that, `Finalize` drops the stashes.

    Each function runs one command after another on a `World`: the repository, the durable operation
    row and the environment that decides which command happens, is refused or meets a crash. */
module GitHandoffCoordinator {
  import opened Options
  import opened Faults
  import opened Git
  import opened HandoffRepository

  datatype Plan = Plan(
    direction: Direction,
    sourceBranch: Branch,
    sourceHead: Commit,
    destinationBranch: Option<Branch>,
    destinationHead: Commit,
    fallbackBranch: Option<Branch>)

  datatype World = World(repo: Repo, row: Row, env: Env)

  /** A read-only command: only its exit code is at the mercy of the environment. */
  function Query(w: World): (World, bool) {
    var (env, ok) := Attempt(w.env);
    (w.(env := env), ok)
  }

  /** A mutating command; `effect` is `None` when Git itself declines. */
  function Mutate(w: World, effect: Option<Repo>): (World, bool) {
    var (env, ok) := Attempt(w.env);
    if ok && effect.Some? then (World(effect.value, w.row, env), true) else (w.(env := env), false)
  }

  // ----- planning -----

  function Inspect(w: World, direction: Direction, defaultBranch: Option<Branch>): (World, Result<Plan, ErrorCode>) {
    var (w1, ok1) := Query(w);
    if !ok1 then (w1, Err(NotGit)) else
    var source, destination := w1.repo.source, w1.repo.destination;
    if w1.repo.HeadCommit(Source).None? || w1.repo.HeadCommit(Destination).None? then (w1, Err(NotGit)) else
    var sourceHead, destinationHead := w1.repo.HeadCommit(Source).value, w1.repo.HeadCommit(Destination).value;
    if !source.head.OnBranch? then (w1, Err(if direction.LocalToWorktree? then LocalDetached else WorktreeDetached)) else
    var sourceBranch := source.head.branch;
    var fallback := if direction.LocalToWorktree? then defaultBranch else None;
    if direction.LocalToWorktree? && (fallback.None? || fallback.value == sourceBranch) then (w1, Err(DefaultBranch)) else
    var destinationBranch := if destination.head.OnBranch? then Some(destination.head.branch) else None;
    if direction.WorktreeToLocal? && w1.repo.Dirty(Destination) then (w1, Err(DestinationDirty)) else
    (w1, Ok(Plan(direction, sourceBranch, sourceHead, destinationBranch, destinationHead, fallback)))
  }

  /** The recovery intent.  `id` stands for the random part of both markers. */
  function CreateJournal(plan: Plan, id: nat): Journal {
    EMPTY_JOURNAL.(
      sourceHead := Some(plan.sourceHead),
      sourceBranch := Some(plan.sourceBranch),
      destinationHead := Some(plan.destinationHead),
      destinationBranch := plan.destinationBranch,
      sourceStashMarker := Some(SourceMarker(id)),
      destinationStashMarker := if plan.direction.LocalToWorktree? then Some(DestinationMarker(id)) else None)
  }

  // ----- transfer -----

  /** A transfer in progress.  `thrown` is the code of what ended it, if it was ended; `rejected` records that the
      repository refused a step, which is shown never to happen. */
  datatype Run = Run(w: World, journal: Journal, warnings: seq<string>, thrown: Option<ErrorCode>, rejected: bool)
  {
    const live: bool := thrown.None?
  }

  datatype Captured = Nothing | Entry(oid: nat) | Thrown(code: ErrorCode)

  function Capture(w: World, side: Side, marker: Marker): (World, Captured) {
    var (w1, statusOk) := Query(w);
    if !statusOk then (w1, Thrown(NotGit))
    else if !w1.repo.Dirty(side) then (w1, Nothing)
    else
      var (w2, beforeOk) := Query(w1);
      var before := if beforeOk then w2.repo.StashTop() else None;
      var (w3, pushed) := Mutate(w2, Some(w2.repo.Push(side, marker)));
      if !pushed then (w3, Thrown(StashFailed))
      else
        var (w4, afterOk) := Query(w3);
        var after := w4.repo.StashTop();
        if !afterOk || after.None? || before == after then (w4, Thrown(StashFailed)) else (w4, Entry(after.value))
  }

  /** The `onStep` callback: record the step and the journal so far. */
  function Save(r: Run, step: Step, change: Change): Run {
    if !r.live then r
    else
      var (w1, ok) := Query(r.w);
      if !ok then r.(w := w1, thrown := Some(HistoryUnsupported))
      else match AdvanceRow(w1.row, step, change)
        case Ok(row) => r.(w := w1.(row := row))
        case Err(code) => r.(w := w1, thrown := Some(code), rejected := true)
  }

  function OnStep(r: Run, step: Step): Run { Save(r, step, NO_CHANGE.(journal := r.journal)) }

  /** A mutating command that throws when it fails. */
  function Required(r: Run, effect: Option<Repo>, code: ErrorCode): Run {
    if !r.live then r
    else
      var (w1, ok) := Mutate(r.w, effect);
      if ok then r.(w := w1) else r.(w := w1, thrown := Some(code))
  }

  /** The marker a capture is recorded under; without a prepared one nothing remembers it. */
  function MarkerOf(prepared: Option<Marker>): Marker {
    if prepared.Some? then prepared.value else Foreign("unrecorded")
  }

  function CaptureSourceStage(r: Run): Run {
    if !r.live then r
    else
      var (w1, captured) := Capture(r.w, Source, MarkerOf(r.journal.sourceStashMarker));
      match captured
      case Thrown(code) => r.(w := w1, thrown := Some(code))
      case Nothing => OnStep(r.(w := w1), CaptureSource)
      case Entry(oid) => OnStep(r.(w := w1, journal := r.journal.(sourceStashRef := Some(oid))), CaptureSource)
  }

  function CaptureDestinationStage(plan: Plan, r: Run): Run {
    if !r.live || !plan.direction.LocalToWorktree? then r
    else
      var (w1, captured) := Capture(r.w, Destination, MarkerOf(r.journal.destinationStashMarker));
      match captured
      case Thrown(code) => r.(w := w1, thrown := Some(code))
      case Nothing => OnStep(r.(w := w1), CaptureSource)
      case Entry(oid) => OnStep(r.(w := w1, journal := r.journal.(destinationStashRef := Some(oid))), CaptureSource)
  }

  function ReleaseStage(plan: Plan, r: Run): Run {
    if !r.live then r
    else if plan.direction.LocalToWorktree? then
      if plan.fallbackBranch.None? then r.(thrown := Some(DefaultBranch))
      else OnStep(Required(r, r.w.repo.CheckoutBranch(Source, plan.fallbackBranch.value), CheckoutFailed), ReleaseBranch)
    else
      var r1 := Required(r, r.w.repo.CheckoutCommit(Source, plan.sourceHead), CheckoutFailed);
      OnStep(if r1.live then r1.(journal := r1.journal.(sourceDetached := true)) else r1, ReleaseBranch)
  }

  function AcquireStage(plan: Plan, r: Run): Run {
    OnStep(Required(r, r.w.repo.CheckoutBranch(Destination, plan.sourceBranch), CheckoutFailed), CheckoutDestination)
  }

  function ApplySourceStage(r: Run): Run {
    if !r.live || r.journal.sourceStashRef.None? then r
    else OnStep(Required(r, r.w.repo.Apply(Destination, r.journal.sourceStashRef.value), ApplyFailed), ApplySourceChanges)
  }

  const NOT_RESTORED := "destination changes kept in their stash"

  function ApplyDestinationStage(r: Run): Run {
    if !r.live || r.journal.destinationStashRef.None? then r
    else
      var (w1, ok) := Mutate(r.w, r.w.repo.Apply(Destination, r.journal.destinationStashRef.value));
      OnStep(if ok then r.(w := w1, journal := r.journal.(destinationStashApplied := true))
                   else r.(w := w1, warnings := r.warnings + [NOT_RESTORED]), ApplySourceChanges)
  }

  function LastStage(r: Run): Run {
    if r.journal.sourceStashRef.None? && r.journal.destinationStashRef.None? then OnStep(r, ApplySourceChanges) else r
  }

  /** The source worktree gives its work and its branch away. */
  function GiveUp(plan: Plan, r: Run): Run { ReleaseStage(plan, CaptureDestinationStage(plan, CaptureSourceStage(r))) }

  /** The destination worktree takes both. */
  function TakeOver(plan: Plan, r: Run): Run { LastStage(ApplyDestinationStage(ApplySourceStage(AcquireStage(plan, r)))) }

  function Transfer(plan: Plan, r: Run): Run { TakeOver(plan, GiveUp(plan, r)) }

  // ----- rollback -----

  /** What a rollback reports.  `ok` is the method's result.  The two further flags record whether a
      command whose failure the method does not turn into `ok == false` was refused: the probes of the
      destination and the push that clears it (`sighted`), and the two stash lookups (`found`). */
  datatype Report = Report(w: World, ok: bool, sighted: bool, found: bool)

  function Resolve(w: World, ref: Option<nat>, marker: Option<Marker>): (World, Option<nat>, bool) {
    if ref.Some? || marker.None? then (w, ref, true)
    else
      var (w1, ok) := Query(w);
      if !ok then (w1, None, w1.env.crashed)
      else match FindMarker(w1.repo.stashes, marker.value)
        case None => (w1, None, true)
        case Some(stash) => (w1, Some(stash.oid), true)
  }

  /** World, answer, and whether the answer is to be trusted. */
  function AtOriginalDestination(w: World, plan: Plan): (World, bool, bool) {
    var (w1, headOk) := Query(w);
    if !headOk then (w1, false, w1.env.crashed)
    else if w1.repo.HeadCommit(Destination) != Some(plan.destinationHead) then (w1, false, true)
    else
      var (w2, branchOk) := Query(w1);
      var branch := if branchOk && w2.repo.destination.head.OnBranch? then Some(w2.repo.destination.head.branch) else None;
      (w2, branch == plan.destinationBranch, branchOk || w2.env.crashed)
  }

  /** Moves whatever the transfer left in the destination out of the way. */
  function ClearDestination(w: World, plan: Plan): Report {
    var (w1, original, trusted) := AtOriginalDestination(w, plan);
    var aside := PushAside(w1, original);
    aside.(sighted := trusted && aside.sighted)
  }

  function PushAside(w: World, original: bool): Report {
    var (w1, statusOk) := Query(w);
    if !statusOk then Report(w1, false, w1.env.crashed, true)
    else if original || !w1.repo.Dirty(Destination) then Report(w1, true, true, true)
    else
      var (w2, pushed) := Mutate(w1, Some(w1.repo.Push(Destination, RollbackMarker)));
      Report(w2, pushed, pushed || w2.env.crashed, true)
  }

  /** A command whose failure turns `ok` false without ending the rollback. */
  function Try(r: Report, effect: Option<Repo>): Report {
    var (w1, ok) := Mutate(r.w, effect);
    r.(w := w1, ok := r.ok && ok)
  }

  function ReturnDestination(j: Journal, r: Report): Report {
    if j.destinationBranch.Some? then Try(r, r.w.repo.CheckoutBranch(Destination, j.destinationBranch.value))
    else if j.destinationHead.Some? then Try(r, r.w.repo.CheckoutCommit(Destination, j.destinationHead.value))
    else r
  }

  function ReturnSource(j: Journal, r: Report): Report {
    if j.sourceBranch.Some? then Try(r, r.w.repo.CheckoutBranch(Source, j.sourceBranch.value)) else r
  }

  function ApplyIfNeeded(r: Report, side: Side, ref: Option<nat>): Report {
    if ref.None? then r
    else
      var (w1, statusOk) := Query(r.w);
      if !statusOk then r.(w := w1, ok := false)
      else if w1.repo.Dirty(side) then
        var (w2, conflictsOk) := Query(w1);
        r.(w := w2, ok := r.ok && conflictsOk)
      else Try(r.(w := w1), w1.repo.Apply(side, ref.value))
  }

  /** The inverse steps, once the destination is clear. */
  function ReturnBoth(j: Journal, r: Report, source: Option<nat>, destination: Option<nat>): Report {
    ApplyIfNeeded(ApplyIfNeeded(ReturnSource(j, ReturnDestination(j, r)), Source, source), Destination, destination)
  }

  function ResolveBoth(w: World, j: Journal): (World, Option<nat>, Option<nat>, bool) {
    var (w1, source, foundSource) := Resolve(w, j.sourceStashRef, j.sourceStashMarker);
    var (w2, destination, foundDestination) := Resolve(w1, j.destinationStashRef, j.destinationStashMarker);
    (w2, source, destination, foundSource && foundDestination)
  }

  function Rollback(plan: Plan, w: World, j: Journal): Report {
    var (w1, source, destination, found) := ResolveBoth(w, j);
    ReturnBoth(j, ClearDestination(w1, plan), source, destination).(found := found)
  }

  /** The plan that startup recovery rebuilds from the journal. */
  function PlanOf(direction: Direction, j: Journal): Option<Plan> {
    if j.sourceHead.None? || j.sourceBranch.None? || j.destinationHead.None? then None
    else Some(Plan(direction, j.sourceBranch.value, j.sourceHead.value, j.destinationBranch, j.destinationHead.value, None))
  }

  // ----- finalize -----

  function IndexOf(stashes: seq<Stash>, oid: nat): (r: Option<nat>)
    ensures r.Some? ==> r.value < |stashes| && stashes[r.value].oid == oid
  {
    if stashes == [] then None
    else if stashes[0].oid == oid then Some(0)
    else match IndexOf(stashes[1..], oid)
      case None => None
      case Some(i) => Some(i + 1)
  }

  /** Drop one entry by its object id: list, look the position up, drop that position. */
  function DropOid(w: World, oid: Option<nat>): (World, bool) {
    if oid.None? then (w, true)
    else
      var (w1, listed) := Query(w);
      if !listed || IndexOf(w1.repo.stashes, oid.value).None? then (w1, false)
      else Mutate(w1, w1.repo.Drop(IndexOf(w1.repo.stashes, oid.value).value))
  }

  const STASH_KEPT := "handoff stash kept for the user to clean up"

  function Finalize(w: World, j: Journal): (World, seq<string>) {
    var (w1, first) := DropOid(w, j.sourceStashRef);
    var (w2, second) := DropOid(w1, if j.destinationStashApplied then j.destinationStashRef else None);
    (w2, (if first then [] else [STASH_KEPT]) + (if second then [] else [STASH_KEPT]))
  }
}
