/** What `Finalize` drops, and that no work is lost by it. */
module HandoffFinalize {
  import opened Options
  import opened Faults
  import opened Git
  import opened HandoffRepository
  import opened GitHandoffCoordinator
  import opened HandoffRecovery
  import opened HandoffTransfer

  /** The list without the entries of these ids, order kept. */
  function Keep(stashes: seq<Stash>, dropped: set<nat>): seq<Stash> {
    if stashes == [] then []
    else if stashes[0].oid in dropped then Keep(stashes[1..], dropped)
    else [stashes[0]] + Keep(stashes[1..], dropped)
  }

  lemma WithoutLater(stashes: seq<Stash>, i: nat)
    requires i + 1 < |stashes|
    ensures stashes[..i + 1] + stashes[i + 2..] == [stashes[0]] + (stashes[1..][..i] + stashes[1..][i + 1..])
  {
  }

  /** Dropping the position an id is found at removes exactly that id. */
  lemma {:induction false} DropByIndex(stashes: seq<Stash>, bound: nat, oid: nat)
    requires Ordered(stashes, bound)
    ensures match IndexOf(stashes, oid)
            case Some(i) => stashes[..i] + stashes[i + 1..] == Keep(stashes, {oid})
            case None => stashes == Keep(stashes, {oid})
  {
    if stashes == [] {
    } else if stashes[0].oid == oid {
      AbsentIsKept(stashes[1..], {oid});
    } else {
      DropByIndex(stashes[1..], bound, oid);
      var later := IndexOf(stashes[1..], oid);
      if later.Some? { WithoutLater(stashes, later.value); }
    }
  }

  lemma {:induction false} AbsentIsKept(stashes: seq<Stash>, dropped: set<nat>)
    requires forall i :: 0 <= i < |stashes| ==> stashes[i].oid !in dropped
    ensures Keep(stashes, dropped) == stashes
  {
    if stashes != [] {
      AbsentIsKept(stashes[1..], dropped);
    }
  }

  lemma {:induction false} KeepTwice(stashes: seq<Stash>, a: set<nat>, b: set<nat>)
    ensures Keep(Keep(stashes, a), b) == Keep(stashes, a + b)
  {
    if stashes != [] {
      KeepTwice(stashes[1..], a, b);
      if stashes[0].oid !in a {
        assert Keep(stashes, a)[1..] == Keep(stashes[1..], a);
      }
    }
  }

  lemma {:induction false} KeptIsListed(stashes: seq<Stash>, dropped: set<nat>, stash: Stash)
    ensures stash in Keep(stashes, dropped) <==> stash in stashes && stash.oid !in dropped
  {
    if stashes != [] {
      KeptIsListed(stashes[1..], dropped, stash);
      assert stash in stashes <==> stash == stashes[0] || stash in stashes[1..];
    }
  }

  lemma {:induction false} KeepStaysOrdered(stashes: seq<Stash>, bound: nat, dropped: set<nat>)
    requires Ordered(stashes, bound)
    ensures Ordered(Keep(stashes, dropped), bound)
  {
    if stashes != [] {
      var rest := Keep(stashes[1..], dropped);
      KeepStaysOrdered(stashes[1..], bound, dropped);
      if stashes[0].oid !in dropped {
        forall s | s in rest ensures s.oid < stashes[0].oid {
          KeptIsListed(stashes[1..], dropped, s);
        }
        OrderedBelow(stashes[0], rest, bound);
      }
    }
  }

  lemma OrderedBelow(first: Stash, rest: seq<Stash>, bound: nat)
    requires Ordered(rest, bound) && first.oid < bound && forall s :: s in rest ==> s.oid < first.oid
    ensures Ordered([first] + rest, bound)
  {
    assert forall i :: 0 <= i < |rest| ==> rest[i] in rest;
  }

  /** The ids `Finalize` is meant to drop: the source stash, and the destination's only once its
      changes were put back. */
  function Disposable(j: Journal): set<nat> {
    (if j.sourceStashRef.Some? then {j.sourceStashRef.value} else {}) +
    (if j.destinationStashApplied && j.destinationStashRef.Some? then {j.destinationStashRef.value} else {})
  }

  lemma DropOidDrops(w: World, oid: Option<nat>, calm: bool)
    requires Ordered(w.repo.stashes, w.repo.nextOid)
    ensures var (w', ok) := DropOid(w, oid);
            && w'.row == w.row
            && (w'.repo == w.repo || (oid.Some? && ok && w'.repo == w.repo.(stashes := Keep(w.repo.stashes, {oid.value}))))
            && (Benign(w.env, calm) ==> Benign(w'.env, calm))
            && (calm && Benign(w.env, calm) && oid.Some? ==> w'.repo.stashes == Keep(w.repo.stashes, {oid.value}))
  {
    if oid.Some? {
      DropByIndex(w.repo.stashes, w.repo.nextOid, oid.value);
      var (w1, listed) := Query(w);
      var index := IndexOf(w1.repo.stashes, oid.value);
      if listed && index.Some? { MutateIsAtomic(w1, w1.repo.Drop(index.value)); }
      if Benign(w.env, calm) { BenignAttempt(w.env, calm); BenignAttempt(w1.env, calm); }
    }
  }

  /** Finalize removes some of the disposable entries and nothing else, whatever fails; when nothing
      fails it removes exactly those, although the positions shift between the two drops. */
  lemma FinalizeDropsExactly(w: World, j: Journal, calm: bool)
    requires Ordered(w.repo.stashes, w.repo.nextOid)
    ensures var (w', _) := Finalize(w, j);
            && w'.row == w.row
            && (exists dropped :: dropped <= Disposable(j) && w'.repo == w.repo.(stashes := Keep(w.repo.stashes, dropped)))
            && (calm && Benign(w.env, calm) ==> w'.repo.stashes == Keep(w.repo.stashes, Disposable(j)))
  {
    var second := if j.destinationStashApplied then j.destinationStashRef else None;
    var (w1, _) := DropOid(w, j.sourceStashRef);
    DropOidDrops(w, j.sourceStashRef, calm);
    var a := if j.sourceStashRef.Some? then {j.sourceStashRef.value} else {};
    var b := if second.Some? then {second.value} else {};
    AbsentIsKept(w.repo.stashes, {});
    KeepStaysOrdered(w.repo.stashes, w.repo.nextOid, a);
    var (w2, _) := DropOid(w1, second);
    DropOidDrops(w1, second, calm);
    KeepTwice(w.repo.stashes, a, b);
    AbsentIsKept(w1.repo.stashes, {});
    assert Disposable(j) == a + b;
    var da := if w1.repo == w.repo then {} else a;
    var db := if w2.repo == w1.repo then {} else b;
    KeepTwice(w.repo.stashes, da, db);
    assert w1.repo == w.repo.(stashes := Keep(w.repo.stashes, da));
    assert w2.repo == w.repo.(stashes := Keep(w.repo.stashes, da + db));
  }

  /** After a delivered transfer, finalizing with any verdicts loses no work: the source's changes and
      any restored destination changes are in the destination worktree, destination changes that could
      not be restored are still stashed, and every stash from before the handoff is kept. */
  ghost predicate NothingLost(o: Origin, repo: Repo) {
    && o.repo.source.changes <= repo.destination.changes
    && (o.repo.destination.changes == []
        || repo.destination.changes == o.repo.source.changes + o.repo.destination.changes
        || exists stash <- repo.stashes :: stash.marker == DestinationMarker(o.id) && stash.changes == o.repo.destination.changes)
    && (forall stash <- o.repo.stashes :: stash in repo.stashes)
  }

  lemma FinalizeLosesNothing(o: Origin, r: Run, w: World, j: Journal)
    requires Begins(o) && Recoverable(o, r.w.repo) && Delivered(o, r)
    requires Guides(r.journal, o, r.w.repo) && w.repo == r.w.repo && Agrees(j, r.journal)
    ensures var (w', _) := Finalize(w, j);
            && w'.repo.destination == w.repo.destination && w'.repo.source == w.repo.source
            && NothingLost(o, w'.repo)
  {
    FinalizeDropsExactly(w, j, false);
    var (w', _) := Finalize(w, j);
    var dropped :| dropped <= Disposable(j) && w'.repo == w.repo.(stashes := Keep(w.repo.stashes, dropped));
    KeptLosesNothing(o, r, w'.repo, dropped);
  }

  lemma KeptLosesNothing(o: Origin, r: Run, repo: Repo, dropped: set<nat>)
    requires Begins(o) && Recoverable(o, r.w.repo) && Delivered(o, r) && Guides(r.journal, o, r.w.repo)
    requires dropped <= Disposable(r.journal) && repo == r.w.repo.(stashes := Keep(r.w.repo.stashes, dropped))
    ensures NothingLost(o, repo)
  {
    var full := r.w.repo.stashes;
    FoundMarkerIsListed(full, SourceMarker(o.id));
    FoundMarkerIsListed(full, DestinationMarker(o.id));
    if o.repo.destination.changes != [] && !r.journal.destinationStashApplied {
      var held := DestinationStash(o, r.w.repo).value;
      SameOidSameStash(r.w.repo, held);
      KeptIsListed(full, dropped, held);
    }
    FoundMarkerIsListed(o.repo.stashes, SourceMarker(o.id));
    FoundMarkerIsListed(o.repo.stashes, DestinationMarker(o.id));
    forall stash | stash in o.repo.stashes ensures stash in repo.stashes {
      assert stash in full[|full| - |o.repo.stashes|..];
      SameOidSameStash(r.w.repo, stash);
      KeptIsListed(full, dropped, stash);
    }
  }

  lemma SameOidSameStash(repo: Repo, stash: Stash)
    requires Wf(repo) && stash in repo.stashes
    ensures forall other <- repo.stashes :: other.oid == stash.oid ==> other == stash
  {
    forall other <- repo.stashes | other.oid == stash.oid ensures other == stash {
      OidFindsItsEntry(repo.stashes, repo.nextOid, stash);
      OidFindsItsEntry(repo.stashes, repo.nextOid, other);
    }
  }
}
