/** The check, made before a rollback, that its report of success will be right whatever is refused. */
module HandoffGuards {
  import opened Options
  import opened Faults
  import opened Git
  import opened HandoffRepository
  import opened GitHandoffCoordinator
  import opened HandoffRecovery
  import opened HandoffReports

  function Marked(repo: Repo, marker: Option<Marker>): Option<Stash> {
    if marker.None? then None else FindMarker(repo.stashes, marker.value)
  }

  function OriginalHead(j: Journal): Option<Head> {
    if j.destinationBranch.Some? then Some(OnBranch(j.destinationBranch.value))
    else if j.destinationHead.Some? then Some(Detached(j.destinationHead.value)) else None
  }

  /** Checked on the repository and the journal alone: each capture is recorded, or was not made, or need not be found;
      and the destination is clean, or at its original head with its own work captured, or where a refused probe cannot
      pass what is there for its own work. */
  predicate Unmistakable(repo: Repo, j: Journal) {
    var source, destination := Marked(repo, j.sourceStashMarker), Marked(repo, j.destinationStashMarker);
    && (source.None? || j.sourceStashRef.Some? || repo.source.changes == source.value.changes)
    && (destination.None? || j.destinationStashRef.Some? || destination.value.changes == [])
    && (!repo.Dirty(Destination)
        || if OriginalHead(j) == Some(repo.destination.head) then destination.Some?
           else j.destinationBranch.Some? || repo.HeadCommit(Destination) != j.destinationHead
                || (destination.Some? && repo.destination.changes == destination.value.changes))
  }

  // ----- which refusals there can be -----

  predicate Possible(repo: Repo, j: Journal, p: Refusals) {
    && (p.source ==> LooksUp(j.sourceStashRef, j.sourceStashMarker))
    && (p.destination ==> LooksUp(j.destinationStashRef, j.destinationStashMarker))
    && (p.branch ==> !p.head && repo.HeadCommit(Destination) == j.destinationHead)
  }

  lemma RefusedArePossible(o: Origin, w: World, j: Journal)
    requires Guides(j, o, w.repo)
    ensures Possible(w.repo, j, RefusedQueries(o.plan, w, j))
  {
  }

  lemma NotMisled(o: Origin, repo: Repo, j: Journal, p: Refusals)
    requires Begins(o) && Recoverable(o, repo) && Guides(j, o, repo) && Unmistakable(repo, j) && Possible(repo, j, p)
    ensures !Misled(o, repo, p)
  {
  }

  lemma SomehowMisled(o: Origin, repo: Repo, j: Journal) returns (p: Refusals)
    requires Begins(o) && Recoverable(o, repo) && Guides(j, o, repo) && !Unmistakable(repo, j)
    ensures Possible(repo, j, p) && Misled(o, repo, p)
  {
    var source, destination := Marked(repo, j.sourceStashMarker), Marked(repo, j.destinationStashMarker);
    if source.Some? && j.sourceStashRef.None? && repo.source.changes != source.value.changes {
      p := Refusals(true, false, false, false);
    } else if destination.Some? && j.destinationStashRef.None? && destination.value.changes != [] {
      p := Refusals(false, true, AtOriginal(o, repo) && repo.Dirty(Destination), false);
    } else if AtOriginal(o, repo) {
      p := Refusals(false, false, true, false);
    } else {
      p := Refusals(false, false, false, true);
    }
  }

  // ----- an environment that refuses just these -----

  function Answer(refused: bool): Verdict { if refused then Refuse else Proceed }

  function Asked(asked: bool, refused: bool): seq<Verdict> { if asked then [Answer(refused)] else [] }

  function Script(repo: Repo, j: Journal, p: Refusals): seq<Verdict> {
    Asked(LooksUp(j.sourceStashRef, j.sourceStashMarker), p.source)
    + (Asked(LooksUp(j.destinationStashRef, j.destinationStashMarker), p.destination)
       + ([Answer(p.head)] + Asked(!p.head && repo.HeadCommit(Destination) == j.destinationHead, p.branch)))
  }

  lemma AskIsAnswered(w: World, asked: bool, refused: bool, rest: seq<Verdict>)
    requires w.env == Env(Asked(asked, refused) + rest, false) && (refused ==> asked)
    ensures Ask(w, asked) == (w.(env := Env(rest, false)), !refused)
  {
    if asked { assert ([Answer(refused)] + rest)[1..] == rest; } else { assert [] + rest == rest; }
  }

  /** The probes alone, with the two lookups behind them. */
  lemma ProbesAreAnswered(o: Origin, w: World, j: Journal, p: Refusals)
    requires Guides(j, o, w.repo) && Possible(w.repo, j, p)
    requires w.env == Env([Answer(p.head)] + Asked(!p.head && w.repo.HeadCommit(Destination) == j.destinationHead, p.branch), false)
    ensures AtOriginalDestination(w, o.plan).0 == w.(env := Env([], false))
    ensures var (w1, head) := Ask(w, true);
            var (_, branch) := Ask(w1, head && w.repo.HeadCommit(Destination) == Some(o.plan.destinationHead));
            head == !p.head && branch == !p.branch
  {
    var asked := !p.head && w.repo.HeadCommit(Destination) == j.destinationHead;
    AskIsAnswered(w, true, p.head, Asked(asked, p.branch));
    var (w1, head) := Ask(w, true);
    assert Asked(asked, p.branch) + [] == Asked(asked, p.branch);
    AskIsAnswered(w1, asked, p.branch, []);
  }

  lemma LookUpsAreAnswered(o: Origin, w: World, j: Journal, p: Refusals, rest: seq<Verdict>)
    requires Guides(j, o, w.repo) && Possible(w.repo, j, p)
    requires w.env == Env(Asked(LooksUp(j.sourceStashRef, j.sourceStashMarker), p.source)
                          + (Asked(LooksUp(j.destinationStashRef, j.destinationStashMarker), p.destination) + rest), false)
    ensures var (w1, source) := Ask(w, LooksUp(j.sourceStashRef, j.sourceStashMarker));
            var (w2, destination) := Ask(w1, LooksUp(j.destinationStashRef, j.destinationStashMarker));
            source == !p.source && destination == !p.destination && w2 == w.(env := Env(rest, false))
  {
    var second := LooksUp(j.destinationStashRef, j.destinationStashMarker);
    AskIsAnswered(w, LooksUp(j.sourceStashRef, j.sourceStashMarker), p.source, Asked(second, p.destination) + rest);
    var (w1, _) := Ask(w, LooksUp(j.sourceStashRef, j.sourceStashMarker));
    AskIsAnswered(w1, second, p.destination, rest);
  }

  lemma ResolveAsks(o: Origin, w: World, j: Journal)
    requires Guides(j, o, w.repo)
    ensures ResolveBoth(w, j).0 ==
            Ask(Ask(w, LooksUp(j.sourceStashRef, j.sourceStashMarker)).0, LooksUp(j.destinationStashRef, j.destinationStashMarker)).0
  {
    LookupTells(w, j.sourceStashRef, j.sourceStashMarker, SourceStash(o, w.repo));
    var (w1, _) := Ask(w, LooksUp(j.sourceStashRef, j.sourceStashMarker));
    LookupTells(w1, j.destinationStashRef, j.destinationStashMarker, DestinationStash(o, w.repo));
  }

  lemma ScriptRefuses(o: Origin, w: World, j: Journal, p: Refusals)
    requires Guides(j, o, w.repo) && Possible(w.repo, j, p) && w.env == Env(Script(w.repo, j, p), false)
    ensures RefusedQueries(o.plan, w, j) == p
    ensures AtOriginalDestination(ResolveBoth(w, j).0, o.plan).0 == w.(env := Env([], false))
  {
    var probes := [Answer(p.head)] + Asked(!p.head && w.repo.HeadCommit(Destination) == j.destinationHead, p.branch);
    LookUpsAreAnswered(o, w, j, p, probes);
    ResolveAsks(o, w, j);
    ProbesAreAnswered(o, w.(env := Env(probes, false)), j, p);
  }

  // ----- after which everything proceeds -----

  ghost predicate Going(r: Report) { r.ok && Calm(r.w.env) }

  lemma CalmAttempt(e: Env)
    requires Calm(e)
    ensures Attempt(e).1 && Calm(Attempt(e).0)
  {
  }

  lemma TryGoes(r: Report, effect: Option<Repo>)
    requires Going(r) && effect.Some?
    ensures Going(Try(r, effect)) && Try(r, effect).w.repo == effect.value
  {
    CalmAttempt(r.w.env);
  }

  lemma ClearGoes(o: Origin, w: World)
    requires Calm(AtOriginalDestination(w, o.plan).0.env)
    ensures Going(ClearDestination(w, o.plan))
  {
    var (w1, original, _) := AtOriginalDestination(w, o.plan);
    CalmAttempt(w1.env);
    var (w2, _) := Query(w1);
    CalmAttempt(w2.env);
  }

  lemma ApplyGoes(r: Report, side: Side, ref: Option<nat>)
    requires Going(r) && (ref.Some? ==> r.w.repo.Apply(side, ref.value).Some?)
    ensures Going(ApplyIfNeeded(r, side, ref)) && ApplyIfNeeded(r, side, ref).w.repo.stashes == r.w.repo.stashes
  {
    if ref.Some? {
      CalmAttempt(r.w.env);
      var (w1, _) := Query(r.w);
      CalmAttempt(w1.env);
      if !w1.repo.Dirty(side) { TryGoes(r.(w := w1), w1.repo.Apply(side, ref.value)); }
    }
  }

  /** The heads are where a transfer can have left them. */
  ghost predicate HeadsSafe(o: Origin, repo: Repo) {
    && repo.branches == o.repo.branches
    && (repo.source.head == o.repo.source.head || (repo.source.head.OnBranch? ==> repo.source.head != o.repo.destination.head))
  }

  lemma HeadsGoBack(o: Origin, j: Journal, r: Report)
    requires Begins(o) && Guides(j, o, r.w.repo) && HeadsSafe(o, r.w.repo) && Going(r)
    ensures Going(ReturnSource(j, ReturnDestination(j, r)))
    ensures ReturnSource(j, ReturnDestination(j, r)).w.repo.stashes == r.w.repo.stashes
  {
    var effect := if j.destinationBranch.Some? then r.w.repo.CheckoutBranch(Destination, j.destinationBranch.value)
                  else r.w.repo.CheckoutCommit(Destination, j.destinationHead.value);
    assert effect.Some?;
    TryGoes(r, effect);
    var r1 := ReturnDestination(j, r);
    assert r1.w.repo.destination.head == o.repo.destination.head;
    TryGoes(r1, r1.w.repo.CheckoutBranch(Source, j.sourceBranch.value));
  }

  lemma ReturnGoes(o: Origin, j: Journal, r: Report, source: Option<nat>, destination: Option<nat>)
    requires Begins(o) && Guides(j, o, r.w.repo) && HeadsSafe(o, r.w.repo) && Wf(r.w.repo) && Going(r)
    requires Names(source, SourceStash(o, r.w.repo)) && Names(destination, DestinationStash(o, r.w.repo))
    ensures ReturnBoth(j, r, source, destination).ok
  {
    HeadsGoBack(o, j, r);
    var r2 := ReturnSource(j, ReturnDestination(j, r));
    NamedApplies(r.w.repo, r2.w.repo, Source, source, SourceMarker(o.id));
    ApplyGoes(r2, Source, source);
    var r3 := ApplyIfNeeded(r2, Source, source);
    NamedApplies(r.w.repo, r3.w.repo, Destination, destination, DestinationMarker(o.id));
    ApplyGoes(r3, Destination, destination);
  }

  lemma NamedApplies(repo: Repo, next: Repo, side: Side, ref: Option<nat>, marker: Marker)
    requires Wf(repo) && next.stashes == repo.stashes && Names(ref, FindMarker(repo.stashes, marker))
    ensures ref.Some? ==> next.Apply(side, ref.value).Some?
  {
    if ref.Some? { MarkedStashApplies(repo, side, marker); }
  }

  lemma ScriptSucceeds(o: Origin, w: World, j: Journal, p: Refusals)
    requires Begins(o) && Recoverable(o, w.repo) && Guides(j, o, w.repo) && Possible(w.repo, j, p)
    requires w.env == Env(Script(w.repo, j, p), false)
    ensures RefusedQueries(o.plan, w, j) == p && Rollback(o.plan, w, j).ok
  {
    ScriptRefuses(o, w, j, p);
    ResolveTells(o, w, j);
    ResolveBothFinds(o, w, j);
    var (w1, source, destination, _) := ResolveBoth(w, j);
    ClearTells(o, w1, p);
    ClearGoes(o, w1);
    ClearedTrees(o, w.repo, p, ClearedRepo(o.plan, w.repo, p));
    ClearKeepsGuide(o, w.repo, ClearedRepo(o.plan, w.repo, p), j);
    var cleared := ClearDestination(w1, o.plan);
    assert cleared.w.repo == ClearedRepo(o.plan, w.repo, p);
    ReturnGoes(o, j, cleared, source, destination);
  }

  lemma ClearKeepsGuide(o: Origin, repo: Repo, next: Repo, j: Journal)
    requires Recoverable(o, repo) && Guides(j, o, repo) && next.branches == o.repo.branches && next.source == repo.source
    requires SourceStash(o, next) == SourceStash(o, repo) && DestinationStash(o, next) == DestinationStash(o, repo)
    ensures Guides(j, o, next) && HeadsSafe(o, next)
  {
  }

  /** Main result on the check: it holds if and only if in no environment at all a report of success is wrong. */
  lemma UnmistakableExactlyWhen(o: Origin, repo: Repo, row: Row, j: Journal)
    requires Begins(o) && Recoverable(o, repo) && Guides(j, o, repo)
    ensures Unmistakable(repo, j) <==>
            forall env: Env :: var r := Rollback(o.plan, World(repo, row, env), j); r.ok ==> Restored(o, r.w.repo)
  {
    if Unmistakable(repo, j) {
      forall env: Env ensures var r := Rollback(o.plan, World(repo, row, env), j); r.ok ==> Restored(o, r.w.repo) {
        var w := World(repo, row, env);
        RefusedArePossible(o, w, j);
        NotMisled(o, repo, j, RefusedQueries(o.plan, w, j));
        ReportIsRightExactlyWhen(o, w, j);
      }
    } else {
      var p := SomehowMisled(o, repo, j);
      var w := World(repo, row, Env(Script(repo, j, p), false));
      ScriptSucceeds(o, w, j, p);
      ReportIsRightExactlyWhen(o, w, j);
      assert w == World(repo, row, w.env);
    }
  }
}
