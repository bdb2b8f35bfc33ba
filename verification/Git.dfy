/** A small model of Git for two worktrees of one repository.

    Branches name fixed commits, each worktree has a head and uncommitted changes, and one stash
    list, newest entry first, is shared by both.  A command either takes full effect or fails and
    changes nothing; the `None` results are the failures Git itself decides on. */
module Git {
  import opened Options

  type Branch = string
  type Commit = nat

  datatype Head = OnBranch(branch: Branch) | Detached(commit: Commit)

  /** An opaque piece of uncommitted work. */
  datatype Patch = Patch(id: nat)

  /** A worktree is clean exactly when `changes` is empty.  Applying a stash appends to `changes`,
      so work that is applied twice shows up twice. */
  datatype Tree = Tree(head: Head, changes: seq<Patch>)

  /** What `git stash push --message` records.  The identifiers are random in the coordinator. */
  datatype Marker = SourceMarker(id: nat) | DestinationMarker(id: nat) | RollbackMarker | Foreign(text: string)

  /** `oid` stands for the object id of the stash commit; ids are handed out in increasing order. */
  datatype Stash = Stash(oid: nat, marker: Marker, changes: seq<Patch>)

  datatype Side = Source | Destination

  datatype Repo = Repo(branches: map<Branch, Commit>, source: Tree, destination: Tree,
                       stashes: seq<Stash>, nextOid: nat)
  {
    function At(side: Side): Tree { if side.Source? then source else destination }

    function With(side: Side, tree: Tree): Repo {
      if side.Source? then this.(source := tree) else this.(destination := tree)
    }

    function Dirty(side: Side): bool { At(side).changes != [] }

    /** `git rev-parse HEAD` */
    function HeadCommit(side: Side): Option<Commit> {
      match At(side).head
      case OnBranch(b) => if b in branches then Some(branches[b]) else None
      case Detached(c) => Some(c)
    }

    /** `git rev-parse refs/stash` */
    function StashTop(): Option<nat> {
      if stashes == [] then None else Some(stashes[0].oid)
    }

    /** `git checkout <branch>`: refused for a branch that the other worktree has checked out.
        Uncommitted changes are carried along. */
    function CheckoutBranch(side: Side, b: Branch): Option<Repo> {
      if b in branches && At(Other(side)).head != OnBranch(b)
      then Some(With(side, At(side).(head := OnBranch(b))))
      else None
    }

    /** `git checkout --detach <commit>` */
    function CheckoutCommit(side: Side, c: Commit): Option<Repo> {
      Some(With(side, At(side).(head := Detached(c))))
    }

    /** `git stash push --include-untracked --message <marker>`; a clean tree yields no entry. */
    function Push(side: Side, marker: Marker): Repo {
      if !Dirty(side) then this
      else With(side, At(side).(changes := []))
           .(stashes := [Stash(nextOid, marker, At(side).changes)] + stashes, nextOid := nextOid + 1)
    }

    /** `git stash apply --index <oid>` */
    function Apply(side: Side, oid: nat): Option<Repo> {
      match FindOid(stashes, oid)
      case None => None
      case Some(stash) => Some(With(side, At(side).(changes := At(side).changes + stash.changes)))
    }

    /** `git stash drop stash@{index}` */
    function Drop(index: nat): Option<Repo> {
      if index < |stashes| then Some(this.(stashes := stashes[..index] + stashes[index + 1..])) else None
    }
  }

  function Other(side: Side): Side { if side.Source? then Destination else Source }

  /** Stash ids decrease down the list and lie below the next free one. */
  ghost predicate Ordered(stashes: seq<Stash>, bound: nat) {
    && (forall i :: 0 <= i < |stashes| ==> stashes[i].oid < bound)
    && (forall i, j :: 0 <= i < j < |stashes| ==> stashes[i].oid > stashes[j].oid)
  }

  ghost predicate Wf(repo: Repo) {
    && Ordered(repo.stashes, repo.nextOid)
    && (repo.source.head.OnBranch? ==> repo.source.head.branch in repo.branches)
    && (repo.destination.head.OnBranch? ==> repo.destination.head.branch in repo.branches)
    && (repo.source.head.OnBranch? ==> repo.source.head != repo.destination.head)
  }

  function FindOid(stashes: seq<Stash>, oid: nat): (r: Option<Stash>) {
    if stashes == [] then None
    else if stashes[0].oid == oid then Some(stashes[0])
    else FindOid(stashes[1..], oid)
  }

  /** The newest entry recorded under `marker`. */
  function FindMarker(stashes: seq<Stash>, marker: Marker): (r: Option<Stash>) {
    if stashes == [] then None
    else if stashes[0].marker == marker then Some(stashes[0])
    else FindMarker(stashes[1..], marker)
  }

  /** With distinct ids, looking an entry up by its id finds that entry. */
  lemma {:induction false} OidFindsItsEntry(stashes: seq<Stash>, bound: nat, stash: Stash)
    requires Ordered(stashes, bound) && stash in stashes
    ensures FindOid(stashes, stash.oid) == Some(stash)
  {
    if stashes[0] == stash {
    } else {
      var i :| 0 <= i < |stashes| && stashes[i] == stash;
      assert stashes[i] in stashes[1..] by { assert stashes[1..][i - 1] == stash; }
      OidFindsItsEntry(stashes[1..], bound, stash);
    }
  }

  lemma {:induction false} FoundMarkerIsListed(stashes: seq<Stash>, marker: Marker)
    ensures match FindMarker(stashes, marker)
            case Some(stash) => stash in stashes && stash.marker == marker
            case None => forall i :: 0 <= i < |stashes| ==> stashes[i].marker != marker
  {
    if stashes != [] && stashes[0].marker != marker {
      FoundMarkerIsListed(stashes[1..], marker);
    }
  }
}
