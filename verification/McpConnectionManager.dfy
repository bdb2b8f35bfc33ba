/** Connection generations of one workspace runtime.

    Handles and generations are objects shared by reference, so both are addressed by index.  Between
    two awaits the manager runs alone; turns, reconciles, connection attempts and callbacks interleave
    in any order. */
module McpConnectionManager {
  import opened Options

  /** A declaration.  Its fingerprint is taken to be injective, so declarations are compared directly. */
  datatype Server = Server(name: string, spec: string, required: bool, enabled: bool)

  datatype ConnectionState = Starting | Connected | NeedsAuth | Failed

  /** `closeCalls` counts the calls of `close()` the manager makes on the handle's connection. */
  datatype Handle = Handle(server: Server, state: ConnectionState, connected: bool, owners: nat,
                           dirty: bool, closing: bool, closeCalls: nat)

  datatype Generation = Generation(config: int, handles: map<string, nat>, required: seq<string>,
                                   leases: nat, retired: bool)

  datatype Lease = Lease(generation: nat, released: bool)

  /** `Connecting`: the reconcile has taken handles for the next generation and awaits the new ones.
      `Settling`: the generation is installed, but the reconcile promise is still pending. */
  datatype Reconcile = Idle
                     | Connecting(config: int, desired: seq<Server>, taken: map<string, nat>, pending: set<string>)
                     | Settling

  datatype State = State(handles: seq<Handle>, generations: seq<Generation>, current: Option<nat>,
                         reconcile: Reconcile, leases: seq<Lease>)

  // ----- the configured servers -----

  datatype ListItem = ListItem(server: Server, effective: bool)

  predicate NameIn(servers: seq<Server>, name: string) { exists i :: 0 <= i < |servers| && servers[i].name == name }

  /** A local server shadows the user server of its name. */
  function ListState(user: seq<Server>, local: seq<Server>): seq<ListItem> {
    seq(|user|, i requires 0 <= i < |user| => ListItem(user[i], !NameIn(local, user[i].name))) +
    seq(|local|, i requires 0 <= i < |local| => ListItem(local[i], true))
  }

  /** The servers a reconcile asks for. */
  function Desired(items: seq<ListItem>): seq<Server> {
    if items == [] then []
    else (if items[0].effective && items[0].server.enabled then [items[0].server] else []) + Desired(items[1..])
  }

  ghost predicate DistinctNames(servers: seq<Server>) {
    forall i, j :: 0 <= i < j < |servers| ==> servers[i].name != servers[j].name
  }

  ghost predicate EffectiveDistinct(items: seq<ListItem>) {
    forall i, j :: 0 <= i < j < |items| && items[i].effective && items[j].effective ==> items[i].server.name != items[j].server.name
  }

  lemma {:induction false} DesiredKeepsDistinct(items: seq<ListItem>)
    requires EffectiveDistinct(items)
    ensures DistinctNames(Desired(items))
    ensures forall server <- Desired(items) :: ListItem(server, true) in items
  {
    if items != [] {
      DesiredKeepsDistinct(items[1..]);
      var rest := Desired(items[1..]);
      forall k | 0 <= k < |rest| && items[0].effective && items[0].server.enabled ensures rest[k].name != items[0].server.name {
        assert ListItem(rest[k], true) in items[1..];
        var i :| 0 <= i < |items[1..]| && items[1..][i] == ListItem(rest[k], true);
        assert items[i + 1] == ListItem(rest[k], true);
      }
      forall server <- Desired(items) ensures ListItem(server, true) in items {
        if server in rest { assert ListItem(server, true) in items[1..]; }
      }
    }
  }

  lemma {:induction false} DesiredExactly(items: seq<ListItem>, server: Server)
    ensures server in Desired(items) <==> ListItem(server, true) in items && server.enabled
  {
    if items != [] {
      DesiredExactly(items[1..], server);
      assert ListItem(server, true) in items <==> ListItem(server, true) == items[0] || ListItem(server, true) in items[1..];
    }
  }

  /** A reconcile asks for every enabled local server and for every enabled user server that no local one shadows, an
      enabled one or not, and for nothing else; names that are distinct within each scope are distinct among these. */
  lemma DesiredNamesDistinct(user: seq<Server>, local: seq<Server>)
    requires DistinctNames(user) && DistinctNames(local)
    ensures DistinctNames(Desired(ListState(user, local)))
    ensures forall server :: server in Desired(ListState(user, local)) <==>
              server.enabled && (server in local || (server in user && forall other <- local :: other.name != server.name))
  {
    var items := ListState(user, local);
    assert EffectiveDistinct(items);
    DesiredKeepsDistinct(items);
    forall server
      ensures server in Desired(items) <==> server.enabled && (server in local || (server in user && forall other <- local :: other.name != server.name))
    {
      DesiredExactly(items, server);
      ListedExactly(user, local, server);
    }
  }

  lemma ListedExactly(user: seq<Server>, local: seq<Server>, server: Server)
    ensures ListItem(server, true) in ListState(user, local) <==>
              server in local || (server in user && forall other <- local :: other.name != server.name)
  {
    var items := ListState(user, local);
    if server in local {
      var i :| 0 <= i < |local| && local[i] == server;
      assert items[|user| + i] == ListItem(server, true);
    }
    if server in user && forall other <- local :: other.name != server.name {
      var i :| 0 <= i < |user| && user[i] == server;
      assert items[i] == ListItem(server, true);
    }
    if ListItem(server, true) in items {
      var i :| 0 <= i < |items| && items[i] == ListItem(server, true);
      if i < |user| { assert server == user[i]; } else { assert server == local[i - |user|]; }
    }
  }

  // ----- the atomic steps -----

  /** The handle the current generation has for a name. */
  function Prior(s: State, name: string): Option<nat> {
    if s.current.Some? && s.current.value < |s.generations| && name in s.generations[s.current.value].handles
    then Some(s.generations[s.current.value].handles[name]) else None
  }

  predicate Reusable(s: State, h: nat, server: Server, force: bool) {
    h < |s.handles| && s.handles[h].server == server && !s.handles[h].dirty && (!force || s.handles[h].state.Connected?)
  }

  function Share(s: State, name: string, h: nat): State
    requires s.reconcile.Connecting? && h < |s.handles|
  {
    s.(handles := s.handles[h := s.handles[h].(owners := s.handles[h].owners + 1)],
       reconcile := s.reconcile.(taken := s.reconcile.taken[name := h]))
  }

  function Open(s: State, server: Server): State
    requires s.reconcile.Connecting?
  {
    s.(handles := s.handles + [Handle(server, Starting, false, 1, false, false, 0)],
       reconcile := s.reconcile.(taken := s.reconcile.taken[server.name := |s.handles|],
                                 pending := s.reconcile.pending + {server.name}))
  }

  /** One desired server of a reconcile that has just begun: share the prior handle or open a new one. */
  function TakeOne(s: State, server: Server, force: bool): State
    requires s.reconcile.Connecting?
  {
    var prior := Prior(s, server.name);
    if prior.Some? && Reusable(s, prior.value, server, force) then Share(s, server.name, prior.value) else Open(s, server)
  }

  function TakeAll(s: State, servers: seq<Server>, force: bool): State
    requires s.reconcile.Connecting?
    decreases |servers|
  {
    if servers == [] then s else TakeAll(TakeOne(s, servers[0], force), servers[1..], force)
  }

  /** The synchronous start of a reconcile, up to its first await. */
  function Begin(s: State, config: int, desired: seq<Server>, force: bool): State {
    TakeAll(s.(reconcile := Connecting(config, desired, map[], {})), desired, force)
  }

  datatype Outcome = Success | Refused(needsAuth: bool)

  function ConnectFinished(s: State, name: string, outcome: Outcome): State
    requires s.reconcile.Connecting? && name in s.reconcile.taken && s.reconcile.taken[name] < |s.handles|
  {
    var h := s.reconcile.taken[name];
    var handle := if outcome.Success? then s.handles[h].(connected := true, state := Connected)
                  else s.handles[h].(state := if outcome.needsAuth then NeedsAuth else Failed);
    s.(handles := s.handles[h := handle], reconcile := s.reconcile.(pending := s.reconcile.pending - {name}))
  }

  /** One owner less; the last owner closes a live connection. */
  function Released(h: Handle): Handle {
    var owners := if h.owners == 0 then 0 else h.owners - 1;
    if owners == 0 && h.connected then h.(owners := owners, closing := true, closeCalls := h.closeCalls + 1)
    else h.(owners := owners)
  }

  function DisposeRetired(s: State, g: nat): State
    requires g < |s.generations|
  {
    var generation := s.generations[g];
    if !generation.retired || generation.leases > 0 then s
    else s.(handles := seq(|s.handles|, i requires 0 <= i < |s.handles| =>
                             if i in generation.handles.Values then Released(s.handles[i]) else s.handles[i]),
            generations := s.generations[g := generation.(handles := map[])])
  }

  function RequiredNames(servers: seq<Server>): seq<string> {
    if servers == [] then []
    else (if servers[0].required then [servers[0].name] else []) + RequiredNames(servers[1..])
  }

  /** All connection attempts are settled: install the generation, retire the previous one. */
  function Install(s: State): State
    requires s.reconcile.Connecting?
  {
    s.(generations := s.generations + [Generation(s.reconcile.config, s.reconcile.taken, RequiredNames(s.reconcile.desired), 0, false)],
       current := Some(|s.generations|),
       reconcile := Settling)
  }

  function Retire(s: State, g: nat): State
    requires g < |s.generations|
  {
    s.(generations := s.generations[g := s.generations[g].(retired := true)])
  }

  function Commit(s: State): State
    requires s.reconcile.Connecting? && (s.current.Some? ==> s.current.value < |s.generations|)
  {
    if s.current.None? then Install(s) else DisposeRetired(Retire(Install(s), s.current.value), s.current.value)
  }

  predicate Available(s: State, g: Generation) {
    forall name <- g.required :: name in g.handles && g.handles[name] < |s.handles| && s.handles[g.handles[name]].state.Connected?
  }

  /** A turn leases the current generation, unless a required server is not connected. */
  function Acquire(s: State): State
    requires s.current.Some? && s.current.value < |s.generations|
  {
    var g := s.current.value;
    if !Available(s, s.generations[g]) then s
    else s.(generations := s.generations[g := s.generations[g].(leases := s.generations[g].leases + 1)],
            leases := s.leases + [Lease(g, false)])
  }

  function GiveBack(s: State, lease: nat): State
    requires lease < |s.leases| && s.leases[lease].generation < |s.generations|
  {
    var g := s.leases[lease].generation;
    var left := if s.generations[g].leases == 0 then 0 else s.generations[g].leases - 1;
    s.(leases := s.leases[lease := Lease(g, true)], generations := s.generations[g := s.generations[g].(leases := left)])
  }

  function Release(s: State, lease: nat): State
    requires lease < |s.leases| && s.leases[lease].generation < |s.generations|
  {
    if s.leases[lease].released then s
    else DisposeRetired(GiveBack(s, lease), s.leases[lease].generation)
  }

  /** The current generation has this handle under its server's name. */
  predicate IsCurrent(s: State, h: nat) {
    && h < |s.handles| && s.current.Some? && s.current.value < |s.generations|
    && s.handles[h].server.name in s.generations[s.current.value].handles
    && s.generations[s.current.value].handles[s.handles[h].server.name] == h
  }

  /** A callback marks a current handle as unusable for the next generation. */
  function Invalidate(s: State, h: nat, handle: Handle): State
    requires IsCurrent(s, h)
  {
    var g := s.current.value;
    s.(handles := s.handles[h := handle.(dirty := true)],
       generations := s.generations[g := s.generations[g].(config := -1)])
  }

  function ConnectionClosed(s: State, h: nat): State
    requires h < |s.handles|
  {
    if s.handles[h].closing || !IsCurrent(s, h) then s
    else Invalidate(s, h, s.handles[h].(connected := false, state := Failed))
  }

  function AuthenticationRequired(s: State, h: nat): State
    requires h < |s.handles|
  {
    if !IsCurrent(s, h) then s else Invalidate(s, h, s.handles[h].(state := NeedsAuth))
  }

  /** The synchronous part of `catalogChanged`; the reload it asks for is a later `Begin`. */
  function CatalogChanged(s: State, name: string): State {
    if s.current.None? || s.current.value >= |s.generations| || name !in s.generations[s.current.value].handles then s
    else
      var h := s.generations[s.current.value].handles[name];
      if !IsCurrent(s, h) || !s.handles[h].connected then s else Invalidate(s, h, s.handles[h])
  }

  // ----- runs -----

  datatype Event =
    | BeginReconcile(config: int, desired: seq<Server>, force: bool)
    | FinishConnect(name: string, outcome: Outcome)
    | CommitReconcile
    | SettleReconcile
    | AcquireLease
    | ReleaseLease(lease: nat)
    | Closed(handle: nat)
    | AuthRequired(handle: nat)
    | Catalog(name: string)

  /** `ensure` starts a reconcile only while none is in flight, and only when forced or out of date. */
  ghost predicate Enabled(s: State, e: Event) {
    match e
    case BeginReconcile(config, desired, force) =>
      && s.reconcile.Idle? && DistinctNames(desired)
      && (force || s.current.None? || (s.current.value < |s.generations| && s.generations[s.current.value].config != config))
    case FinishConnect(name, _) =>
      s.reconcile.Connecting? && name in s.reconcile.pending && name in s.reconcile.taken && s.reconcile.taken[name] < |s.handles|
    case CommitReconcile => s.reconcile.Connecting? && s.reconcile.pending == {} && (s.current.Some? ==> s.current.value < |s.generations|)
    case SettleReconcile => s.reconcile.Settling?
    case AcquireLease => s.current.Some? && s.current.value < |s.generations|
    case ReleaseLease(lease) => lease < |s.leases| && s.leases[lease].generation < |s.generations|
    case Closed(h) => h < |s.handles|
    case AuthRequired(h) => h < |s.handles|
    case Catalog(_) => true
  }

  ghost function Next(s: State, e: Event): State
    requires Enabled(s, e)
  {
    match e
    case BeginReconcile(config, desired, force) => Begin(s, config, desired, force)
    case FinishConnect(name, outcome) => ConnectFinished(s, name, outcome)
    case CommitReconcile => Commit(s)
    case SettleReconcile => s.(reconcile := Idle)
    case AcquireLease => Acquire(s)
    case ReleaseLease(lease) => Release(s, lease)
    case Closed(h) => ConnectionClosed(s, h)
    case AuthRequired(h) => AuthenticationRequired(s, h)
    case Catalog(name) => CatalogChanged(s, name)
  }

  const EMPTY := State([], [], None, Idle, [])
}
