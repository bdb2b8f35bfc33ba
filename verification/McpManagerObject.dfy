/** The manager as an object: each method is one stretch of code between two awaits. */
module McpManagerObject {
  import opened Options
  import opened McpConnectionManager
  import opened McpOwnership

  class ConnectionManager {
    var handles: seq<Handle>
    var generations: seq<Generation>
    var current: Option<nat>
    var reconcile: Reconcile
    var leases: seq<Lease>

    function State(): McpConnectionManager.State reads this {
      McpConnectionManager.State(handles, generations, current, reconcile, leases)
    }

    ghost predicate Valid() reads this { Inv(State()) }

    constructor ()
      ensures Valid() && State() == EMPTY
    {
      handles, generations, current, reconcile, leases := [], [], None, Idle, [];
    }

    /** From the start of a reconcile to its first await: take over what can be shared, open the rest. */
    method BeginReconcile(config: int, desired: seq<Server>, force: bool)
      requires Valid() && Enabled(State(), Event.BeginReconcile(config, desired, force))
      modifies this
      ensures Valid() && State() == Begin(old(State()), config, desired, force)
    {
      NextKeepsInv(State(), Event.BeginReconcile(config, desired, force));
      TakeHandles(config, desired, force);
    }

    method TakeHandles(config: int, desired: seq<Server>, force: bool)
      modifies this
      ensures State() == Begin(old(State()), config, desired, force)
    {
      ghost var goal := Begin(State(), config, desired, force);
      reconcile := Connecting(config, desired, map[], {});
      for i := 0 to |desired|
        invariant reconcile.Connecting?
        invariant TakeAll(State(), desired[i..], force) == goal
      {
        var server := desired[i];
        ghost var before := State();
        assert desired[i..][1..] == desired[i + 1..];
        var prior := Prior(State(), server.name);
        if prior.Some? && Reusable(State(), prior.value, server, force) {
          handles := handles[prior.value := handles[prior.value].(owners := handles[prior.value].owners + 1)];
          reconcile := reconcile.(taken := reconcile.taken[server.name := prior.value]);
        } else {
          reconcile := reconcile.(taken := reconcile.taken[server.name := |handles|], pending := reconcile.pending + {server.name});
          handles := handles + [Handle(server, Starting, false, 1, false, false, 0)];
        }
        assert State() == TakeOne(before, server, force);
      }
    }

    method FinishConnect(name: string, outcome: Outcome)
      requires Valid() && Enabled(State(), Event.FinishConnect(name, outcome))
      modifies this`handles, this`reconcile
      ensures Valid() && State() == ConnectFinished(old(State()), name, outcome)
    {
      NextKeepsInv(State(), Event.FinishConnect(name, outcome));
      var h := reconcile.taken[name];
      match outcome {
        case Success => handles := handles[h := handles[h].(connected := true, state := Connected)];
        case Refused(needsAuth) => handles := handles[h := handles[h].(state := if needsAuth then NeedsAuth else McpConnectionManager.Failed)];
      }
      reconcile := reconcile.(pending := reconcile.pending - {name});
    }

    /** Gives every handle of a retired, unleased generation one owner less and closes those left without. */
    method DisposeRetired(g: nat)
      requires g < |generations| && Filed(handles, generations[g].handles)
      modifies this`handles, this`generations
      ensures State() == McpConnectionManager.DisposeRetired(old(State()), g)
    {
      var generation := generations[g];
      if !generation.retired || generation.leases > 0 { return; }
      ghost var before := handles;
      var names := generation.handles.Keys;
      while names != {}
        invariant names <= generation.handles.Keys && |handles| == |before| && generations == old(generations)
        invariant forall h :: 0 <= h < |before| ==>
          handles[h] == if Holds(generation.handles, before[h].server.name, h) && before[h].server.name !in names
                        then Released(before[h]) else before[h]
      {
        var name :| name in names;
        var h := generation.handles[name];
        var owners := if handles[h].owners == 0 then 0 else handles[h].owners - 1;
        handles := handles[h := handles[h].(owners := owners)];
        if owners == 0 && handles[h].connected {
          handles := handles[h := handles[h].(closing := true, closeCalls := handles[h].closeCalls + 1)];
        }
        names := names - {name};
      }
      generations := generations[g := generation.(handles := map[])];
      forall h | 0 <= h < |before| { ValuesAreFiled(before, generation.handles, h); }
      assert handles == McpConnectionManager.DisposeRetired(old(State()), g).handles;
    }

    /** All attempts are settled: install the new generation and retire the previous one. */
    method CommitReconcile()
      requires Valid() && Enabled(State(), Event.CommitReconcile)
      modifies this
      ensures Valid() && State() == Commit(old(State()))
    {
      NextKeepsInv(State(), Event.CommitReconcile);
      InstallKeepsCounts(State());
      var previous := current;
      generations := generations + [Generation(reconcile.config, reconcile.taken, RequiredNames(reconcile.desired), 0, false)];
      current := Some(|generations| - 1);
      reconcile := Settling;
      if previous.Some? {
        generations := generations[previous.value := generations[previous.value].(retired := true)];
        DisposeRetired(previous.value);
      }
    }

    /** A lease on the current generation, or nothing when a required server is unavailable. */
    method Acquire() returns (lease: Option<nat>)
      requires Valid() && current.Some?
      modifies this`generations, this`leases
      ensures Valid() && State() == McpConnectionManager.Acquire(old(State()))
      ensures lease.Some? <==> Available(old(State()), old(generations[current.value]))
      ensures lease.Some? ==> lease.value < |leases| && leases[lease.value] == Lease(current.value, false)
    {
      NextKeepsInv(State(), AcquireLease);
      var g := current.value;
      if !Available(State(), generations[g]) { return None; }
      generations := generations[g := generations[g].(leases := generations[g].leases + 1)];
      leases := leases + [Lease(g, false)];
      return Some(|leases| - 1);
    }

    method Release(lease: nat)
      requires Valid() && lease < |leases|
      modifies this
      ensures Valid() && State() == McpConnectionManager.Release(old(State()), lease)
    {
      NextKeepsInv(State(), ReleaseLease(lease));
      if leases[lease].released { return; }
      var g := leases[lease].generation;
      leases := leases[lease := Lease(g, true)];
      generations := generations[g := generations[g].(leases := if generations[g].leases == 0 then 0 else generations[g].leases - 1)];
      DisposeRetired(g);
    }

    method ConnectionClosed(h: nat)
      requires Valid() && h < |handles|
      modifies this`handles, this`generations
      ensures Valid() && State() == McpConnectionManager.ConnectionClosed(old(State()), h)
    {
      NextKeepsInv(State(), Closed(h));
      if handles[h].closing || !IsCurrent(State(), h) { return; }
      handles := handles[h := handles[h].(connected := false, state := McpConnectionManager.Failed, dirty := true)];
      generations := generations[current.value := generations[current.value].(config := -1)];
    }

    method CatalogChanged(name: string)
      requires Valid()
      modifies this`handles, this`generations
      ensures Valid() && State() == McpConnectionManager.CatalogChanged(old(State()), name)
    {
      NextKeepsInv(State(), Catalog(name));
      if current.None? || name !in generations[current.value].handles { return; }
      var h := generations[current.value].handles[name];
      if !handles[h].connected { return; }
      handles := handles[h := handles[h].(dirty := true)];
      generations := generations[current.value := generations[current.value].(config := -1)];
    }
  }
}
