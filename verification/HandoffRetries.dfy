/** Cleaning up after a handoff, cut short and repeated: nothing that should go is left without a word. */
module HandoffRetries {
  import opened Options
  import opened Faults
  import opened Git
  import opened HandoffRepository
  import opened GitHandoffCoordinator
  import opened HandoffRecovery
  import opened HandoffFinalize
  import opened HandoffService
  import opened HandoffSafety
  import opened HandoffCrashes
  import opened HandoffMessages

  /** The entry is gone if dropping it reports success. */
  lemma DropOidReports(w: World, oid: Option<nat>)
    requires Ordered(w.repo.stashes, w.repo.nextOid)
    ensures var (v, ok) := DropOid(w, oid);
            && v.row == w.row && v.repo == w.repo.(stashes := v.repo.stashes)
            && v.repo.stashes == (if ok && oid.Some? then Keep(w.repo.stashes, {oid.value}) else w.repo.stashes)
  {
    if oid.Some? { DropByIndex(w.repo.stashes, w.repo.nextOid, oid.value); }
  }

  ghost predicate AnyLeft(stashes: seq<Stash>, ids: set<nat>) { exists stash <- stashes :: stash.oid in ids }

  /** Finalizing drops some of the disposable stashes; if one is left it warns, and always in the same words. */
  lemma FinalizeWarns(w: World, j: Journal)
    requires Ordered(w.repo.stashes, w.repo.nextOid)
    ensures var (v, warnings) := Finalize(w, j);
            && v.row == w.row
            && (exists dropped :: dropped <= Disposable(j) && v.repo == w.repo.(stashes := Keep(w.repo.stashes, dropped)))
            && (AnyLeft(v.repo.stashes, Disposable(j)) ==> STASH_KEPT in warnings) && forall m <- warnings :: m == STASH_KEPT
  {
    hide DropOid;
    var second := if j.destinationStashApplied then j.destinationStashRef else None;
    var (w1, first) := DropOid(w, j.sourceStashRef);
    DropOidReports(w, j.sourceStashRef);
    var a := if first && j.sourceStashRef.Some? then {j.sourceStashRef.value} else {};
    AbsentIsKept(w.repo.stashes, {});
    KeepStaysOrdered(w.repo.stashes, w.repo.nextOid, a);
    var (w2, dropped) := DropOid(w1, second);
    DropOidReports(w1, second);
    var b := if dropped && second.Some? then {second.value} else {};
    AbsentIsKept(w1.repo.stashes, {});
    KeepTwice(w.repo.stashes, a, b);
    assert a + b <= Disposable(j) && w2.repo == w.repo.(stashes := Keep(w.repo.stashes, a + b));
    if first && dropped {
      assert a + b == Disposable(j);
      forall stash | stash in w2.repo.stashes ensures stash.oid !in Disposable(j) { KeptIsListed(w.repo.stashes, a + b, stash); }
    }
  }

  lemma WarnedTakesOne(w: World, m: string)
    ensures var (v, ok) := Warned(w, m);
            && ok == Attempt(w.env).1 && v.env == Attempt(w.env).0 && v.repo == w.repo
            && v.row == w.row.(warnings := v.row.warnings, revision := v.row.revision)
            && (ok ==> m in v.row.warnings) && w.row.warnings <= v.row.warnings
  {
  }

  lemma {:induction false} AppendTakes(w: World, warnings: seq<string>, n: nat)
    ensures var (v, ok) := AppendWarnings(w, warnings);
            && (Granted(w.env, |warnings| + n) <==> ok && Granted(v.env, n))
            && v.repo == w.repo && v.row == w.row.(warnings := v.row.warnings, revision := v.row.revision)
            && (ok ==> forall m <- warnings :: m in v.row.warnings) && w.row.warnings <= v.row.warnings
    decreases |warnings|
  {
    hide Warned;
    if warnings != [] {
      WarnedTakesOne(w, warnings[0]);
      var (w1, ok) := Warned(w, warnings[0]);
      if ok { AppendTakes(w1, warnings[1..], n); }
    }
  }

  /** How far tidying up gets, call by call: it finds the worktrees, finalizes, records each warning, releases the
      workspace and may forget the journal; it is done exactly when all of these succeed. */
  lemma TidiedExactlyWhen(w: World, j: Journal)
    ensures var (v, done) := Tidy(w, j);
            var (e, found) := Attempt(w.env);
            var (u, warnings) := Finalize(w.(env := e), j);
            && (done <==> found && Granted(u.env, |warnings| + 2))
            && v.repo == (if found then u.repo else w.repo)
            && v.row == w.row.(warnings := v.row.warnings, revision := v.row.revision) && w.row.warnings <= v.row.warnings
            && (done ==> forall m <- warnings :: m in v.row.warnings)
  {
    hide DropOid, AppendWarnings;
    var (u, warnings) := Finalize(w.(env := Attempt(w.env).0), j);
    FinalizeKeepsRow(w.(env := Attempt(w.env).0), j);
    AppendTakes(u, warnings, 2);
    var v := AppendWarnings(u, warnings).0;
    assert Granted(v.env, 2) <==> Attempt(v.env).1 && Granted(Attempt(v.env).0, 1);
    assert Granted(Attempt(v.env).0, 1) <==> Attempt(Attempt(v.env).0).1 && Granted(Attempt(Attempt(v.env).0).0, 0);
  }

  /** A clean-up forgets the journal exactly if it tidied up; otherwise it says that something is left to do, unless even
      that cannot be recorded. */
  lemma CleanUpForgetsExactlyWhen(w: World, j: Journal)
    ensures var (v, ok) := CleanUp(w, j);
            var (u, done) := Tidy(w, j);
            && v.repo == u.repo && v.row.status == w.row.status && u.row.warnings <= v.row.warnings
            && v.row.journal == (if done then EMPTY_JOURNAL else w.row.journal)
            && (done ==> ok && v.row.warnings == u.row.warnings)
            && (!done ==> ok == Attempt(u.env).1 && (ok ==> CLEANUP_PENDING in v.row.warnings))
  {
    hide Tidy, Warned;
    TidiedExactlyWhen(w, j);
    WarnedTakesOne(Tidy(w, j).0, CLEANUP_PENDING);
  }

  // ----- over and over -----

  /** Acknowledgements one after another, each in an environment of its own. */
  function Acknowledged(w: World, again: seq<(Env, nat)>): World
    decreases |again|
  {
    if again == [] then w else Acknowledged(Acknowledge(w.(env := again[0].0), again[0].1).0, again[1..])
  }

  /** Some disposable stashes are gone; once the journal is forgotten, one that is not is reported. */
  ghost predicate CleaningUp(repo: Repo, j: Journal, v: World) {
    && v.row.status.Completed? && (v.row.journal == j || v.row.journal == EMPTY_JOURNAL)
    && (exists dropped :: dropped <= Disposable(j) && v.repo == repo.(stashes := Keep(repo.stashes, dropped)))
    && (v.row.journal == EMPTY_JOURNAL && AnyLeft(v.repo.stashes, Disposable(j)) ==> STASH_KEPT in v.row.warnings)
  }

  lemma CleanUpGoesOn(repo: Repo, j: Journal, w: World)
    requires Ordered(repo.stashes, repo.nextOid) && CleaningUp(repo, j, w)
    ensures CleaningUp(repo, j, CleanUp(w, w.row.journal).0)
    ensures Calm(w.env) ==> CleanUp(w, w.row.journal).1 && CleanUp(w, w.row.journal).0.row.journal == EMPTY_JOURNAL
    ensures Calm(w.env) && w.row.journal == j ==> !AnyLeft(CleanUp(w, w.row.journal).0.repo.stashes, Disposable(j))
  {
    hide CleanUp, Tidy, Finalize;
    var a :| a <= Disposable(j) && w.repo == repo.(stashes := Keep(repo.stashes, a));
    KeepStaysOrdered(repo.stashes, repo.nextOid, a);
    CleanUpForgetsExactlyWhen(w, w.row.journal);
    TidiedExactlyWhen(w, w.row.journal);
    var f := w.(env := Attempt(w.env).0);
    var (u, warnings) := Finalize(f, w.row.journal);
    FinalizeWarns(f, w.row.journal);
    var b :| b <= Disposable(w.row.journal) && u.repo == w.repo.(stashes := Keep(w.repo.stashes, b));
    KeepTwice(repo.stashes, a, b);
    AbsentIsKept(w.repo.stashes, {});
    assert a + b <= Disposable(j) && u.repo == repo.(stashes := Keep(repo.stashes, a + b));
    LeftBefore(w.repo.stashes, b, Disposable(j));
    if Calm(w.env) {
      CalmIsGranted(w.env, 1);
      FinalizeStaysCalm(f, w.row.journal);
      CalmIsGranted(u.env, |warnings| + 2);
      if w.row.journal == j {
        forall stash | stash in u.repo.stashes ensures stash.oid !in Disposable(j) { KeptIsListed(w.repo.stashes, Disposable(j), stash); }
      }
    }
  }

  lemma LeftBefore(stashes: seq<Stash>, dropped: set<nat>, ids: set<nat>)
    ensures AnyLeft(Keep(stashes, dropped), ids) ==> AnyLeft(stashes, ids)
  {
    if stash :| stash in Keep(stashes, dropped) && stash.oid in ids { KeptIsListed(stashes, dropped, stash); }
  }

  lemma {:induction false} CalmIsGranted(e: Env, n: nat)
    requires Calm(e)
    ensures Granted(e, n) && Attempt(e).1 && Calm(Attempt(e).0)
    decreases n
  {
    if n > 0 { CalmIsGranted(Attempt(e).0, n - 1); }
  }

  lemma FinalizeStaysCalm(w: World, j: Journal)
    requires Calm(w.env) && Ordered(w.repo.stashes, w.repo.nextOid)
    ensures Calm(Finalize(w, j).0.env) && Finalize(w, j).0.repo.stashes == Keep(w.repo.stashes, Disposable(j))
  {
    hide DropOid;
    FinalizeDropsExactly(w, j, true);
    var second := if j.destinationStashApplied then j.destinationStashRef else None;
    DropOidDrops(w, j.sourceStashRef, true);
    var w1 := DropOid(w, j.sourceStashRef).0;
    DropOidReports(w, j.sourceStashRef);
    if j.sourceStashRef.Some? { KeepStaysOrdered(w.repo.stashes, w.repo.nextOid, {j.sourceStashRef.value}); }
    DropOidDrops(w1, second, true);
  }

  lemma {:induction false} AcknowledgedGoesOn(repo: Repo, j: Journal, w: World, again: seq<(Env, nat)>)
    requires Ordered(repo.stashes, repo.nextOid) && CleaningUp(repo, j, w)
    ensures CleaningUp(repo, j, Acknowledged(w, again))
    decreases |again|
  {
    hide CleanUp;
    if again != [] {
      var v := w.(env := again[0].0);
      assert CleaningUp(repo, j, v);
      CleanUpGoesOn(repo, j, v);
      AcknowledgedGoesOn(repo, j, Acknowledge(v, again[0].1).0, again[1..]);
    }
  }

  /** Main result on retries.  Acknowledge a completed handoff any number of times, each time with any verdicts, and then
      once undisturbed, at any revision: the journal is forgotten; only disposable stashes were dropped; and a disposable
      stash is left only if a warning says so, which takes a clean-up that had forgotten the journal before. */
  lemma RepeatedAcknowledgementFinishes(w: World, again: seq<(Env, nat)>, env: Env, revision: nat)
    requires w.row.status.Completed? && Ordered(w.repo.stashes, w.repo.nextOid) && Calm(env) && w.row.journal != EMPTY_JOURNAL
    ensures var u := Acknowledged(w, again);
            var (v, ok) := Acknowledge(u.(env := env), revision);
            && ok && v.row.status.Completed? && v.row.journal == EMPTY_JOURNAL
            && (exists dropped :: dropped <= Disposable(w.row.journal) && v.repo == w.repo.(stashes := Keep(w.repo.stashes, dropped)))
            && (AnyLeft(v.repo.stashes, Disposable(w.row.journal)) ==> u.row.journal == EMPTY_JOURNAL && STASH_KEPT in v.row.warnings)
  {
    hide CleanUp;
    AbsentIsKept(w.repo.stashes, {});
    assert w.repo == w.repo.(stashes := Keep(w.repo.stashes, {}));
    AcknowledgedGoesOn(w.repo, w.row.journal, w, again);
    var u := Acknowledged(w, again).(env := env);
    assert CleaningUp(w.repo, w.row.journal, u);
    CleanUpGoesOn(w.repo, w.row.journal, u);
  }
}
