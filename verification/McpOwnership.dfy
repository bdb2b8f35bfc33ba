/** Reference counting across generations: who owns a connection handle, and when it is closed. */
module McpOwnership {
  import opened Options
  import opened McpConnectionManager

  predicate Holds(handles: map<string, nat>, name: string, h: nat) { name in handles && handles[name] == h }

  /** How many generations hold handle `h` under `name`. */
  function Holders(generations: seq<Generation>, name: string, h: nat): nat {
    if generations == [] then 0
    else Holders(generations[..|generations| - 1], name, h) + (if Holds(generations[|generations| - 1].handles, name, h) then 1 else 0)
  }

  function TakenBy(r: Reconcile, name: string, h: nat): nat {
    if r.Connecting? && Holds(r.taken, name, h) then 1 else 0
  }

  function LeaseCount(leases: seq<Lease>, g: nat): nat {
    if leases == [] then 0
    else LeaseCount(leases[..|leases| - 1], g)
         + (if leases[|leases| - 1].generation == g && !leases[|leases| - 1].released then 1 else 0)
  }

  /** Every entry leads to a handle of the server it is filed under. */
  ghost predicate Filed(handles: seq<Handle>, entries: map<string, nat>) {
    forall name :: name in entries ==> entries[name] < |handles| && handles[entries[name]].server.name == name
  }

  ghost predicate OwnersCounted(s: State) {
    forall h :: 0 <= h < |s.handles| ==>
      s.handles[h].owners == Holders(s.generations, s.handles[h].server.name, h) + TakenBy(s.reconcile, s.handles[h].server.name, h)
  }

  /** A handle without owners has been closed, exactly once, or never had a connection left to close;
      a handle with owners has not been closed by the manager. */
  ghost predicate ClosedWithLastOwner(s: State) {
    forall h :: 0 <= h < |s.handles| ==>
      && s.handles[h].closeCalls == (if s.handles[h].closing then 1 else 0)
      && (s.handles[h].closing ==> s.handles[h].owners == 0)
      && (s.handles[h].owners == 0 ==> (s.handles[h].closing <==> s.handles[h].connected))
  }

  ghost predicate GenerationsSound(s: State) {
    && (s.current.Some? ==> s.current.value < |s.generations|)
    && forall g :: 0 <= g < |s.generations| ==>
         && Filed(s.handles, s.generations[g].handles)
         && (!s.generations[g].retired <==> s.current == Some(g))
         && (s.generations[g].retired && s.generations[g].leases == 0 ==> s.generations[g].handles == map[])
  }

  ghost predicate LeasesCounted(s: State) {
    && (forall i :: 0 <= i < |s.leases| ==> s.leases[i].generation < |s.generations|)
    && forall g :: 0 <= g < |s.generations| ==> s.generations[g].leases == LeaseCount(s.leases, g)
  }

  ghost predicate ReconcileSound(s: State) {
    s.reconcile.Connecting? ==>
      && Filed(s.handles, s.reconcile.taken)
      && s.reconcile.pending <= s.reconcile.taken.Keys
      && forall name :: name in s.reconcile.pending ==> !s.handles[s.reconcile.taken[name]].connected
  }

  ghost predicate Inv(s: State) {
    OwnersCounted(s) && ClosedWithLastOwner(s) && GenerationsSound(s) && LeasesCounted(s) && ReconcileSound(s)
  }

  // ----- counting -----

  lemma {:induction false} HoldersAfterUpdate(generations: seq<Generation>, g: nat, next: Generation, name: string, h: nat)
    requires g < |generations|
    ensures Holders(generations[g := next], name, h) + (if Holds(generations[g].handles, name, h) then 1 else 0)
         == Holders(generations, name, h) + (if Holds(next.handles, name, h) then 1 else 0)
  {
    var last := |generations| - 1;
    if g == last {
      assert generations[g := next][..last] == generations[..last];
    } else {
      HoldersAfterUpdate(generations[..last], g, next, name, h);
      assert generations[g := next][..last] == generations[..last][g := next];
    }
  }

  lemma HoldersAfterAppend(generations: seq<Generation>, next: Generation, name: string, h: nat)
    ensures Holders(generations + [next], name, h) == Holders(generations, name, h) + (if Holds(next.handles, name, h) then 1 else 0)
  {
    assert (generations + [next])[..|generations|] == generations;
  }

  lemma {:induction false} HolderCounts(generations: seq<Generation>, g: nat, name: string, h: nat)
    requires g < |generations| && Holds(generations[g].handles, name, h)
    ensures Holders(generations, name, h) >= 1
  {
    if g < |generations| - 1 {
      HolderCounts(generations[..|generations| - 1], g, name, h);
    }
  }

  lemma {:induction false} NoHolders(generations: seq<Generation>, name: string, h: nat)
    requires forall g :: 0 <= g < |generations| ==> !Holds(generations[g].handles, name, h)
    ensures Holders(generations, name, h) == 0
  {
    if generations != [] {
      NoHolders(generations[..|generations| - 1], name, h);
    }
  }

  lemma {:induction false} LeaseCountAfterRelease(leases: seq<Lease>, i: nat, g: nat)
    requires i < |leases| && !leases[i].released
    ensures LeaseCount(leases[i := Lease(leases[i].generation, true)], g) + (if leases[i].generation == g then 1 else 0) == LeaseCount(leases, g)
  {
    var last := |leases| - 1;
    var next := leases[i := Lease(leases[i].generation, true)];
    if i == last {
      assert next[..last] == leases[..last];
    } else {
      LeaseCountAfterRelease(leases[..last], i, g);
      assert next[..last] == leases[..last][i := Lease(leases[i].generation, true)];
    }
  }

  lemma LeaseCountAfterAppend(leases: seq<Lease>, lease: Lease, g: nat)
    ensures LeaseCount(leases + [lease], g) == LeaseCount(leases, g) + (if lease.generation == g && !lease.released then 1 else 0)
  {
    assert (leases + [lease])[..|leases|] == leases;
  }

  lemma {:induction false} NoLeases(leases: seq<Lease>, g: nat)
    requires forall i :: 0 <= i < |leases| ==> leases[i].generation < g
    ensures LeaseCount(leases, g) == 0
  {
    if leases != [] {
      NoLeases(leases[..|leases| - 1], g);
    }
  }

  // ----- each step keeps the invariant -----

  /** In a filed map, the one name a handle can stand under is its server's. */
  lemma ValuesAreFiled(handles: seq<Handle>, entries: map<string, nat>, h: nat)
    requires Filed(handles, entries) && h < |handles|
    ensures h in entries.Values <==> Holds(entries, handles[h].server.name, h)
  {
  }

  ghost predicate AlmostGenerationsSound(s: State, g: nat) {
    && (s.current.Some? ==> s.current.value < |s.generations|)
    && forall k :: 0 <= k < |s.generations| ==>
         && Filed(s.handles, s.generations[k].handles)
         && (!s.generations[k].retired <==> s.current == Some(k))
         && (k != g && s.generations[k].retired && s.generations[k].leases == 0 ==> s.generations[k].handles == map[])
  }

  lemma DisposedHandle(s: State, g: nat, h: nat)
    requires g < |s.generations| && h < |s.handles| && s.generations[g].retired && s.generations[g].leases == 0
    requires OwnersCounted(s) && ClosedWithLastOwner(s) && AlmostGenerationsSound(s, g)
    ensures var s' := DisposeRetired(s, g);
            && s'.handles[h] == (if Holds(s.generations[g].handles, s.handles[h].server.name, h) then Released(s.handles[h]) else s.handles[h])
            && s'.handles[h].server == s.handles[h].server && s'.handles[h].connected == s.handles[h].connected
            && (Holds(s.generations[g].handles, s.handles[h].server.name, h) ==> s.handles[h].owners >= 1)
            && s'.handles[h].owners == Holders(s'.generations, s.handles[h].server.name, h) + TakenBy(s.reconcile, s.handles[h].server.name, h)
  {
    var generation := s.generations[g];
    var name := s.handles[h].server.name;
    ValuesAreFiled(s.handles, generation.handles, h);
    HoldersAfterUpdate(s.generations, g, generation.(handles := map[]), name, h);
    if Holds(generation.handles, name, h) { HolderCounts(s.generations, g, name, h); }
  }

  lemma FiledAcross(before: seq<Handle>, after: seq<Handle>, entries: map<string, nat>)
    requires Filed(before, entries) && |before| <= |after|
    requires forall h :: 0 <= h < |before| ==> after[h].server == before[h].server
    ensures Filed(after, entries)
  {
  }

  lemma DisposeKeepsCounts(s: State, g: nat)
    requires g < |s.generations| && s.generations[g].retired && s.generations[g].leases == 0
    requires OwnersCounted(s) && ClosedWithLastOwner(s) && AlmostGenerationsSound(s, g)
    ensures OwnersCounted(DisposeRetired(s, g)) && ClosedWithLastOwner(DisposeRetired(s, g))
  {
    var s' := DisposeRetired(s, g);
    forall h | 0 <= h < |s.handles|
      ensures s'.handles[h].owners == Holders(s'.generations, s'.handles[h].server.name, h) + TakenBy(s'.reconcile, s'.handles[h].server.name, h)
      ensures s'.handles[h].closeCalls == (if s'.handles[h].closing then 1 else 0)
      ensures s'.handles[h].closing ==> s'.handles[h].owners == 0
      ensures s'.handles[h].owners == 0 ==> s'.handles[h].closing || !s'.handles[h].connected
    {
      DisposedHandle(s, g, h);
    }
  }

  lemma DisposeKeepsInv(s: State, g: nat)
    requires g < |s.generations|
    requires OwnersCounted(s) && ClosedWithLastOwner(s) && LeasesCounted(s) && ReconcileSound(s) && AlmostGenerationsSound(s, g)
    ensures Inv(DisposeRetired(s, g))
  {
    var s' := DisposeRetired(s, g);
    if s.generations[g].retired && s.generations[g].leases == 0 {
      forall h | 0 <= h < |s.handles|
        ensures s'.handles[h].server == s.handles[h].server && s'.handles[h].connected == s.handles[h].connected
      {
        DisposedHandle(s, g, h);
      }
      DisposeKeepsCounts(s, g);
      assert GenerationsSound(s') by {
        forall k | 0 <= k < |s.generations| ensures Filed(s'.handles, s'.generations[k].handles) {
          FiledAcross(s.handles, s'.handles, s.generations[k].handles);
        }
      }
      assert ReconcileSound(s') by {
        if s.reconcile.Connecting? { FiledAcross(s.handles, s'.handles, s.reconcile.taken); }
      }
    }
  }

  /** A step that changes neither servers, owners, closing nor who holds what. */
  lemma PatchKeepsInv(s: State, h: nat, handle: Handle)
    requires Inv(s) && h < |s.handles|
    requires handle.server == s.handles[h].server && handle.owners == s.handles[h].owners
    requires handle.closing == s.handles[h].closing && handle.closeCalls == s.handles[h].closeCalls
    requires handle.connected ==> s.handles[h].connected
    requires handle.connected == s.handles[h].connected || s.handles[h].owners > 0
    ensures Inv(s.(handles := s.handles[h := handle]))
  {
    var s' := s.(handles := s.handles[h := handle]);
    forall k | 0 <= k < |s.generations| ensures Filed(s'.handles, s'.generations[k].handles) {
      FiledAcross(s.handles, s'.handles, s.generations[k].handles);
    }
    if s.reconcile.Connecting? { FiledAcross(s.handles, s'.handles, s.reconcile.taken); }
  }

  /** Changing a generation's configuration number touches no count. */
  lemma ConfigKeepsInv(s: State, g: nat, config: int)
    requires Inv(s) && g < |s.generations|
    ensures Inv(s.(generations := s.generations[g := s.generations[g].(config := config)]))
  {
    forall h | 0 <= h < |s.handles| {
      HoldersAfterUpdate(s.generations, g, s.generations[g].(config := config), s.handles[h].server.name, h);
    }
  }

  lemma InvalidateKeepsInv(s: State, h: nat, handle: Handle)
    requires Inv(s) && IsCurrent(s, h)
    requires handle.server == s.handles[h].server && handle.owners == s.handles[h].owners
    requires handle.closing == s.handles[h].closing && handle.closeCalls == s.handles[h].closeCalls
    requires handle.connected ==> s.handles[h].connected
    requires handle.connected == s.handles[h].connected || s.handles[h].owners > 0
    ensures Inv(Invalidate(s, h, handle))
  {
    PatchKeepsInv(s, h, handle.(dirty := true));
    ConfigKeepsInv(s.(handles := s.handles[h := handle.(dirty := true)]), s.current.value, -1);
  }

  lemma OpenKeepsInv(s: State, server: Server)
    requires Inv(s) && s.reconcile.Connecting? && server.name !in s.reconcile.taken
    ensures Inv(Open(s, server))
  {
    var s' := Open(s, server);
    NoHolders(s.generations, server.name, |s.handles|);
    FiledAcross(s.handles, s'.handles, s.reconcile.taken);
    forall k | 0 <= k < |s.generations| ensures Filed(s'.handles, s'.generations[k].handles) {
      FiledAcross(s.handles, s'.handles, s.generations[k].handles);
    }
    OpenKeepsCounts(s, server);
    assert GenerationsSound(s') && ReconcileSound(s');
  }

  lemma OpenKeepsCounts(s: State, server: Server)
    requires OwnersCounted(s) && s.reconcile.Connecting? && server.name !in s.reconcile.taken && Filed(s.handles, s.reconcile.taken)
    requires Holders(s.generations, server.name, |s.handles|) == 0
    ensures OwnersCounted(Open(s, server))
  {
    var s' := Open(s, server);
    forall h | 0 <= h < |s.handles|
      ensures s'.handles[h] == s.handles[h] && TakenBy(s'.reconcile, s.handles[h].server.name, h) == TakenBy(s.reconcile, s.handles[h].server.name, h)
    {
    }
  }

  lemma ShareKeepsInv(s: State, name: string, h: nat)
    requires Inv(s) && s.reconcile.Connecting? && name !in s.reconcile.taken && Prior(s, name) == Some(h)
    ensures Inv(Share(s, name, h))
  {
    var s' := Share(s, name, h);
    HolderCounts(s.generations, s.current.value, name, h);
    FiledAcross(s.handles, s'.handles, s.reconcile.taken);
    forall k | 0 <= k < |s.generations| ensures Filed(s'.handles, s'.generations[k].handles) {
      FiledAcross(s.handles, s'.handles, s.generations[k].handles);
    }
  }

  lemma TakeOneKeepsInv(s: State, server: Server, force: bool)
    requires Inv(s) && s.reconcile.Connecting? && server.name !in s.reconcile.taken
    ensures Inv(TakeOne(s, server, force)) && TakeOne(s, server, force).reconcile.Connecting?
    ensures TakeOne(s, server, force).reconcile.taken.Keys == s.reconcile.taken.Keys + {server.name}
  {
    var prior := Prior(s, server.name);
    if prior.Some? && Reusable(s, prior.value, server, force) {
      ShareKeepsInv(s, server.name, prior.value);
    } else {
      OpenKeepsInv(s, server);
    }
  }

  lemma {:induction false} TakeAllKeepsInv(s: State, servers: seq<Server>, force: bool)
    requires Inv(s) && s.reconcile.Connecting? && DistinctNames(servers)
    requires forall i :: 0 <= i < |servers| ==> servers[i].name !in s.reconcile.taken
    ensures Inv(TakeAll(s, servers, force))
    decreases |servers|
  {
    if servers != [] {
      TakeOneKeepsInv(s, servers[0], force);
      TakeAllKeepsInv(TakeOne(s, servers[0], force), servers[1..], force);
    }
  }

  lemma ConnectKeepsInv(s: State, name: string, outcome: Outcome)
    requires Inv(s) && Enabled(s, FinishConnect(name, outcome))
    ensures Inv(ConnectFinished(s, name, outcome))
  {
    var s' := ConnectFinished(s, name, outcome);
    forall k | 0 <= k < |s.generations| ensures Filed(s'.handles, s'.generations[k].handles) {
      FiledAcross(s.handles, s'.handles, s.generations[k].handles);
    }
    FiledAcross(s.handles, s'.handles, s.reconcile.taken);
  }

  lemma InstallKeepsCounts(s: State)
    requires Inv(s) && s.reconcile.Connecting?
    ensures var s' := Install(s);
            && OwnersCounted(s') && ClosedWithLastOwner(s') && LeasesCounted(s') && ReconcileSound(s')
            && forall k :: 0 <= k < |s'.generations| ==> Filed(s'.handles, s'.generations[k].handles)
  {
    var s' := Install(s);
    var next := s'.generations[|s.generations|];
    forall h | 0 <= h < |s.handles| {
      HoldersAfterAppend(s.generations, next, s.handles[h].server.name, h);
    }
    NoLeases(s.leases, |s.generations|);
  }

  lemma CommitKeepsInv(s: State)
    requires Inv(s) && Enabled(s, CommitReconcile)
    ensures Inv(Commit(s))
  {
    InstallKeepsCounts(s);
    if s.current.Some? {
      var g := s.current.value;
      var s2 := Retire(Install(s), g);
      UpdateKeepsOwners(Install(s), g, Install(s).generations[g].(retired := true));
      assert LeasesCounted(s2) && ReconcileSound(s2) && AlmostGenerationsSound(s2, g);
      DisposeKeepsInv(s2, g);
    }
  }

  /** A generation that holds the same handles counts for the same owners. */
  lemma UpdateKeepsOwners(s: State, g: nat, next: Generation)
    requires g < |s.generations| && OwnersCounted(s) && next.handles == s.generations[g].handles
    ensures OwnersCounted(s.(generations := s.generations[g := next]))
  {
    forall h | 0 <= h < |s.handles|
      ensures Holders(s.generations[g := next], s.handles[h].server.name, h) == Holders(s.generations, s.handles[h].server.name, h)
    {
      HoldersAfterUpdate(s.generations, g, next, s.handles[h].server.name, h);
    }
  }

  lemma AcquireKeepsInv(s: State)
    requires Inv(s) && Enabled(s, AcquireLease)
    ensures Inv(Acquire(s))
  {
    var g := s.current.value;
    if Available(s, s.generations[g]) {
      UpdateKeepsOwners(s, g, s.generations[g].(leases := s.generations[g].leases + 1));
      forall k | 0 <= k < |s.generations| {
        LeaseCountAfterAppend(s.leases, Lease(g, false), k);
      }
    }
  }

  lemma ReleaseKeepsInv(s: State, lease: nat)
    requires Inv(s) && Enabled(s, ReleaseLease(lease))
    ensures Inv(Release(s, lease))
  {
    if !s.leases[lease].released {
      var g := s.leases[lease].generation;
      var s1 := GiveBack(s, lease);
      forall k | 0 <= k < |s.generations| {
        LeaseCountAfterRelease(s.leases, lease, k);
      }
      forall h | 0 <= h < |s.handles| {
        HoldersAfterUpdate(s.generations, g, s1.generations[g], s.handles[h].server.name, h);
      }
      DisposeKeepsInv(s1, g);
    }
  }

  lemma NextKeepsInv(s: State, e: Event)
    requires Inv(s) && Enabled(s, e)
    ensures Inv(Next(s, e))
  {
    match e {
      case BeginReconcile(config, desired, force) =>
        var s1 := s.(reconcile := Connecting(config, desired, map[], {}));
        assert Inv(s1);
        TakeAllKeepsInv(s1, desired, force);
      case FinishConnect(name, outcome) => ConnectKeepsInv(s, name, outcome);
      case CommitReconcile => CommitKeepsInv(s);
      case SettleReconcile => assert forall name, h :: TakenBy(s.reconcile, name, h) == 0;
      case AcquireLease => AcquireKeepsInv(s);
      case ReleaseLease(lease) => ReleaseKeepsInv(s, lease);
      case Closed(h) =>
        if !s.handles[h].closing && IsCurrent(s, h) { InvalidateKeepsInv(s, h, s.handles[h].(connected := false, state := McpConnectionManager.Failed)); }
      case AuthRequired(h) =>
        if IsCurrent(s, h) { InvalidateKeepsInv(s, h, s.handles[h].(state := NeedsAuth)); }
      case Catalog(name) =>
        if CatalogChanged(s, name) != s {
          var h := s.generations[s.current.value].handles[name];
          InvalidateKeepsInv(s, h, s.handles[h]);
        }
    }
  }

  // ----- every reachable state -----

  ghost predicate Possible(s: State, events: seq<Event>)
    decreases |events|
  {
    events != [] ==> Enabled(s, events[0]) && Possible(Next(s, events[0]), events[1..])
  }

  ghost function RunAll(s: State, events: seq<Event>): State
    requires Possible(s, events)
    decreases |events|
  {
    if events == [] then s else RunAll(Next(s, events[0]), events[1..])
  }

  lemma {:induction false} ReachableInv(s: State, events: seq<Event>)
    requires Inv(s) && Possible(s, events)
    ensures Inv(RunAll(s, events))
    decreases |events|
  {
    if events != [] {
      NextKeepsInv(s, events[0]);
      ReachableInv(Next(s, events[0]), events[1..]);
    }
  }

  /** A generation that a turn may still use: the current one, or one that is leased. */
  ghost predicate InUse(s: State, g: nat) {
    g < |s.generations| && (s.current == Some(g) || s.generations[g].leases > 0)
  }

  /** Main result on sharing.  In every state reachable from an empty manager, under every interleaving
      of turns, reconciles, connection attempts and callbacks: a handle's count is the number of
      generations that hold it, plus one while an in-flight reconcile has taken it; no connection of a
      generation in use has been closed by the manager; no connection is closed twice; and a connection
      whose last owner is gone has been closed. */
  lemma EveryInterleavingIsSafe(events: seq<Event>)
    requires Possible(EMPTY, events)
    ensures var s := RunAll(EMPTY, events);
            && OwnersCounted(s)
            && (forall g: nat, name :: InUse(s, g) && name in s.generations[g].handles ==>
                  s.generations[g].handles[name] < |s.handles| && !s.handles[s.generations[g].handles[name]].closing)
            && (forall h :: 0 <= h < |s.handles| ==> s.handles[h].closeCalls == if s.handles[h].owners == 0 && s.handles[h].connected then 1 else 0)
  {
    assert Inv(EMPTY);
    ReachableInv(EMPTY, events);
    var s := RunAll(EMPTY, events);
    forall g: nat, name | InUse(s, g) && name in s.generations[g].handles
      ensures s.generations[g].handles[name] < |s.handles| && !s.handles[s.generations[g].handles[name]].closing
    {
      HolderCounts(s.generations, g, name, s.generations[g].handles[name]);
    }
  }

  /** The guards against negative counts never fire: whoever gives something back holds it. */
  lemma CountsNeverClamp(s: State, g: nat, name: string)
    requires Inv(s) && g < |s.generations|
    ensures name in s.generations[g].handles ==> s.handles[s.generations[g].handles[name]].owners >= 1
    ensures forall i :: 0 <= i < |s.leases| && !s.leases[i].released ==> s.generations[s.leases[i].generation].leases >= 1
  {
    if name in s.generations[g].handles {
      HolderCounts(s.generations, g, name, s.generations[g].handles[name]);
    }
    forall i | 0 <= i < |s.leases| && !s.leases[i].released ensures s.generations[s.leases[i].generation].leases >= 1 {
      LeaseCountAfterRelease(s.leases, i, s.leases[i].generation);
    }
  }

  /** A handle that has lost its last owner. */
  ghost predicate Gone(s: State, h: nat) { h < |s.handles| && s.handles[h].owners == 0 }

  lemma TakeOneLeavesGone(s: State, server: Server, force: bool, h: nat)
    requires Inv(s) && s.reconcile.Connecting? && Gone(s, h)
    ensures Gone(TakeOne(s, server, force), h)
  {
    var prior := Prior(s, server.name);
    if prior.Some? { HolderCounts(s.generations, s.current.value, server.name, prior.value); }
  }

  lemma {:induction false} TakeAllLeavesGone(s: State, servers: seq<Server>, force: bool, h: nat)
    requires Inv(s) && s.reconcile.Connecting? && Gone(s, h) && DistinctNames(servers)
    requires forall i :: 0 <= i < |servers| ==> servers[i].name !in s.reconcile.taken
    ensures Gone(TakeAll(s, servers, force), h)
    decreases |servers|
  {
    if servers != [] {
      TakeOneLeavesGone(s, servers[0], force, h);
      TakeOneKeepsInv(s, servers[0], force);
      TakeAllLeavesGone(TakeOne(s, servers[0], force), servers[1..], force, h);
    }
  }

  lemma NextLeavesGone(s: State, e: Event, h: nat)
    requires Inv(s) && Enabled(s, e) && Gone(s, h)
    ensures Gone(Next(s, e), h)
  {
    if e.BeginReconcile? {
      TakeAllLeavesGone(s.(reconcile := Connecting(e.config, e.desired, map[], {})), e.desired, e.force, h);
    }
  }

  /** A handle that has lost its last owner is never taken up again. */
  lemma {:induction false} GoneForever(s: State, events: seq<Event>, h: nat)
    requires Inv(s) && Possible(s, events) && Gone(s, h)
    ensures Gone(RunAll(s, events), h)
    decreases |events|
  {
    if events != [] {
      NextLeavesGone(s, events[0], h);
      NextKeepsInv(s, events[0]);
      GoneForever(Next(s, events[0]), events[1..], h);
    }
  }

  lemma {:induction false} TakeAllLeavesGenerations(s: State, servers: seq<Server>, force: bool)
    requires s.reconcile.Connecting?
    ensures var s' := TakeAll(s, servers, force);
            s'.generations == s.generations && s'.leases == s.leases && s'.current == s.current && |s.handles| <= |s'.handles|
    decreases |servers|
  {
    if servers != [] {
      TakeAllLeavesGenerations(TakeOne(s, servers[0], force), servers[1..], force);
    }
  }

  lemma LeaseOutlives(s: State, e: Event, i: nat)
    requires Inv(s) && Enabled(s, e) && i < |s.leases| && !s.leases[i].released && e != ReleaseLease(i)
    requires s.generations[s.leases[i].generation].leases >= 1
    ensures var s' := Next(s, e);
            var g := s.leases[i].generation;
            i < |s'.leases| && s'.leases[i] == s.leases[i] && g < |s'.generations| && s'.generations[g].handles == s.generations[g].handles
  {
    match e {
      case BeginReconcile(config, desired, force) =>
        TakeAllLeavesGenerations(s.(reconcile := Connecting(config, desired, map[], {})), desired, force);
      case ReleaseLease(lease) =>
        ReleaseKeepsLeased(s, lease, i);
      case CommitReconcile => CommitKeepsLeased(s, s.leases[i].generation);
      case _ =>
    }
  }

  lemma ReleaseKeepsLeased(s: State, lease: nat, i: nat)
    requires Inv(s) && lease < |s.leases| && i < |s.leases| && lease != i && !s.leases[i].released
    requires s.generations[s.leases[i].generation].leases >= 1
    ensures var s' := Release(s, lease);
            var g := s.leases[i].generation;
            i < |s'.leases| && s'.leases[i] == s.leases[i] && g < |s'.generations| && s'.generations[g].handles == s.generations[g].handles
  {
    var g := s.leases[i].generation;
    if !s.leases[lease].released && s.leases[lease].generation == g {
      LeaseCountAfterRelease(s.leases, lease, g);
      LeaseCountAfterRelease(s.leases[lease := Lease(g, true)], i, g);
    }
  }

  lemma CommitKeepsLeased(s: State, g: nat)
    requires Inv(s) && Enabled(s, CommitReconcile) && g < |s.generations| && s.generations[g].leases >= 1
    ensures var s' := Commit(s); s'.leases == s.leases && g < |s'.generations| && s'.generations[g].handles == s.generations[g].handles
  {
  }

  /** A lease keeps its whole generation: as long as it is not released, no step removes a handle from
      the generation or closes one, even if a reconcile in flight retires the generation meanwhile. */
  lemma LeaseKeepsGeneration(s: State, e: Event, i: nat)
    requires Inv(s) && Enabled(s, e) && i < |s.leases| && !s.leases[i].released && e != ReleaseLease(i)
    ensures var s' := Next(s, e);
            var g := s.leases[i].generation;
            && i < |s'.leases| && s'.leases[i] == s.leases[i] && g < |s'.generations|
            && s'.generations[g].handles == s.generations[g].handles
            && forall name :: name in s.generations[g].handles ==>
                 s.generations[g].handles[name] < |s'.handles| && !s'.handles[s.generations[g].handles[name]].closing
  {
    NextKeepsInv(s, e);
    var s' := Next(s, e);
    var g := s.leases[i].generation;
    LeaseCountAfterRelease(s.leases, i, g);
    LeaseOutlives(s, e, i);
    forall name | name in s.generations[g].handles ensures s.generations[g].handles[name] < |s'.handles| && !s'.handles[s.generations[g].handles[name]].closing {
      HolderCounts(s'.generations, g, name, s.generations[g].handles[name]);
    }
  }
}
