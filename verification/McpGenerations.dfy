/** What a generation offers: the declarations that were asked for, and to a turn only with everything required
    connected. */
module McpGenerations {
  import opened Options
  import opened McpConnectionManager
  import opened McpOwnership

  /** Entries for exactly these servers, each a handle of that very declaration. */
  ghost predicate Serves(handles: seq<Handle>, entries: map<string, nat>, servers: seq<Server>) {
    && (forall i :: 0 <= i < |servers| ==>
          servers[i].name in entries && entries[servers[i].name] < |handles| && handles[entries[servers[i].name]].server == servers[i])
    && (forall name :: name in entries ==> NameIn(servers, name))
  }

  /** A reconcile in flight has taken a handle for each desired server and nothing else. */
  ghost predicate TakesDesired(s: State) {
    s.reconcile.Connecting? ==> Serves(s.handles, s.reconcile.taken, s.reconcile.desired)
  }

  /** Handles are never redeclared. */
  ghost predicate KeepsServers(before: seq<Handle>, after: seq<Handle>) {
    |before| <= |after| && forall h :: 0 <= h < |before| ==> after[h].server == before[h].server
  }

  lemma ServesStill(before: seq<Handle>, after: seq<Handle>, entries: map<string, nat>, servers: seq<Server>)
    requires Serves(before, entries, servers) && KeepsServers(before, after)
    ensures Serves(after, entries, servers)
  {
  }

  lemma TakeOneServes(s: State, done: seq<Server>, server: Server, force: bool)
    requires s.reconcile.Connecting? && Serves(s.handles, s.reconcile.taken, done) && !NameIn(done, server.name)
    ensures var s' := TakeOne(s, server, force);
            s'.reconcile.Connecting? && Serves(s'.handles, s'.reconcile.taken, done + [server]) && KeepsServers(s.handles, s'.handles)
  {
    var s' := TakeOne(s, server, force);
    forall i | 0 <= i < |done| ensures done[i].name != server.name {
      assert NameIn(done, done[i].name);
    }
    assert (done + [server])[|done|] == server;
    forall name | name in s'.reconcile.taken ensures NameIn(done + [server], name) {
      if name != server.name {
        var i :| 0 <= i < |done| && done[i].name == name;
        assert (done + [server])[i].name == name;
      }
    }
  }

  lemma {:induction false} TakeAllServes(s: State, done: seq<Server>, servers: seq<Server>, force: bool)
    requires s.reconcile.Connecting? && Serves(s.handles, s.reconcile.taken, done) && DistinctNames(done + servers)
    ensures var s' := TakeAll(s, servers, force);
            && s'.reconcile.Connecting? && Serves(s'.handles, s'.reconcile.taken, done + servers)
            && KeepsServers(s.handles, s'.handles) && s'.reconcile.desired == s.reconcile.desired
    decreases |servers|
  {
    if servers == [] {
      assert done + servers == done;
    } else {
      var all := done + servers;
      assert all[|done|] == servers[0] && forall i :: 0 <= i < |done| ==> all[i] == done[i];
      TakeOneServes(s, done, servers[0], force);
      assert done + [servers[0]] + servers[1..] == all;
      TakeAllServes(TakeOne(s, servers[0], force), done + [servers[0]], servers[1..], force);
    }
  }

  lemma NextTakesDesired(s: State, e: Event)
    requires TakesDesired(s) && Enabled(s, e) && !e.BeginReconcile?
    ensures KeepsServers(s.handles, Next(s, e).handles)
    ensures Next(s, e).reconcile.Connecting? ==>
              s.reconcile.Connecting? && Next(s, e).reconcile.taken == s.reconcile.taken && Next(s, e).reconcile.desired == s.reconcile.desired
  {
  }

  lemma NextKeepsTakesDesired(s: State, e: Event)
    requires TakesDesired(s) && Enabled(s, e)
    ensures TakesDesired(Next(s, e))
  {
    if e.BeginReconcile? {
      assert [] + e.desired == e.desired;
      TakeAllServes(s.(reconcile := Connecting(e.config, e.desired, map[], {})), [], e.desired, e.force);
    } else {
      NextTakesDesired(s, e);
      if Next(s, e).reconcile.Connecting? {
        ServesStill(s.handles, Next(s, e).handles, s.reconcile.taken, s.reconcile.desired);
      }
    }
  }

  lemma {:induction false} RunTakesDesired(s: State, events: seq<Event>)
    requires TakesDesired(s) && Possible(s, events)
    ensures TakesDesired(RunAll(s, events))
    decreases |events|
  {
    if events != [] {
      NextKeepsTakesDesired(s, events[0]);
      RunTakesDesired(Next(s, events[0]), events[1..]);
    }
  }

  lemma {:induction false} RequiredAreRequired(servers: seq<Server>, name: string)
    ensures name in RequiredNames(servers) <==> exists i :: 0 <= i < |servers| && servers[i].name == name && servers[i].required
  {
    if servers != [] {
      RequiredAreRequired(servers[1..], name);
      if i :| 0 <= i < |servers| && servers[i].name == name && servers[i].required {
        assert i == 0 || servers[1..][i - 1] == servers[i];
      }
      if i :| 0 <= i < |servers[1..]| && servers[1..][i].name == name && servers[1..][i].required {
        assert servers[i + 1] == servers[1..][i];
      }
    }
  }

  /** In every run, the generation a reconcile installs serves exactly the servers it was asked for, each by the
      declaration it was asked for with, and requires exactly those of them that are required. */
  lemma InstalledServesDesired(events: seq<Event>)
    requires Possible(EMPTY, events) && Enabled(RunAll(EMPTY, events), CommitReconcile)
    ensures var s := RunAll(EMPTY, events);
            var s' := Next(s, CommitReconcile);
            && s'.current.Some? && s'.current.value == |s.generations| < |s'.generations|
            && var g := s'.generations[s'.current.value];
            && Serves(s'.handles, g.handles, s.reconcile.desired)
            && g.config == s.reconcile.config && g.required == RequiredNames(s.reconcile.desired)
            && !g.retired && g.leases == 0
  {
    RunTakesDesired(EMPTY, events);
    var s := RunAll(EMPTY, events);
    NextTakesDesired(s, CommitReconcile);
    ServesStill(s.handles, Next(s, CommitReconcile).handles, s.reconcile.taken, s.reconcile.desired);
    ReachableInv(EMPTY, events);
    CommitInstalls(s);
  }

  lemma CommitInstalls(s: State)
    requires s.reconcile.Connecting? && GenerationsSound(s)
    ensures var s' := Commit(s);
            && s'.current == Some(|s.generations|) && |s'.generations| == |s.generations| + 1
            && s'.generations[|s.generations|] == Generation(s.reconcile.config, s.reconcile.taken, RequiredNames(s.reconcile.desired), 0, false)
  {
  }

  /** The handle that the current generation has for a server may serve it on. */
  ghost predicate ServesOn(s: State, server: Server, force: bool, h: nat) {
    && s.current.Some? && s.current.value < |s.generations| && h < |s.handles|
    && server.name in s.generations[s.current.value].handles && s.generations[s.current.value].handles[server.name] == h
    && s.handles[h].server == server && !s.handles[h].dirty && (force ==> s.handles[h].state.Connected?)
  }

  /** A handle is reused if and only if the current generation has it for the same name, it is declared alike, is clean
      and, in a forced reconcile, connected; every other server gets a new one. */
  lemma {:induction false} ReuseIsClean(s: State, servers: seq<Server>, force: bool, i: nat)
    requires s.reconcile.Connecting? && DistinctNames(servers) && i < |servers|
    ensures var s' := TakeAll(s, servers, force);
            && s'.reconcile.Connecting? && servers[i].name in s'.reconcile.taken
            && var h := s'.reconcile.taken[servers[i].name];
            && (h < |s.handles| ==> ServesOn(s, servers[i], force, h))
            && (forall p: nat :: ServesOn(s, servers[i], force, p) ==> h == p)
            && (h >= |s.handles| ==> h < |s'.handles| && s'.handles[h].server == servers[i] && servers[i].name in s'.reconcile.pending)
    decreases |servers|
  {
    TakeOneTakes(s, servers[0], force);
    var next := TakeOne(s, servers[0], force);
    if i == 0 {
      OthersLeave(next, servers[1..], force, servers[0].name);
    } else {
      assert servers[1..][i - 1] == servers[i];
      ReuseIsClean(next, servers[1..], force, i - 1);
      AnotherServesOn(s, servers[0], servers[i], force);
    }
  }

  lemma TakeOneTakes(s: State, server: Server, force: bool)
    requires s.reconcile.Connecting?
    ensures var s' := TakeOne(s, server, force);
            && s'.reconcile.Connecting? && server.name in s'.reconcile.taken
            && var h := s'.reconcile.taken[server.name];
            && h < |s'.handles|
            && (h < |s.handles| ==> ServesOn(s, server, force, h))
            && (forall p: nat :: ServesOn(s, server, force, p) ==> h == p)
            && (h >= |s.handles| ==> s'.handles[h].server == server && server.name in s'.reconcile.pending)
  {
  }

  /** Taking one server leaves open whether another is served on, except by what is new. */
  lemma AnotherServesOn(s: State, first: Server, server: Server, force: bool)
    requires s.reconcile.Connecting?
    ensures var s' := TakeOne(s, first, force);
            forall p: nat :: p < |s.handles| ==> (ServesOn(s', server, force, p) <==> ServesOn(s, server, force, p))
  {
  }

  lemma {:induction false} OthersLeave(s: State, servers: seq<Server>, force: bool, name: string)
    requires s.reconcile.Connecting? && name in s.reconcile.taken && !NameIn(servers, name)
    ensures var s' := TakeAll(s, servers, force);
            && s'.reconcile.Connecting? && name in s'.reconcile.taken && s'.reconcile.taken[name] == s.reconcile.taken[name]
            && KeepsServers(s.handles, s'.handles) && (name in s.reconcile.pending ==> name in s'.reconcile.pending)
    decreases |servers|
  {
    if servers != [] {
      assert NameIn(servers, servers[0].name);
      forall i | 0 <= i < |servers[1..]| ensures servers[1..][i].name != name {
        assert servers[i + 1].name != name;
      }
      OthersLeave(TakeOne(s, servers[0], force), servers[1..], force, name);
    }
  }

  /** A turn gets a lease if and only if every required server of the current generation is connected. */
  lemma LeaseNeedsRequired(s: State)
    requires s.current.Some? && s.current.value < |s.generations|
    ensures var s' := Acquire(s);
            var g := s.generations[s.current.value];
            && (|s'.leases| > |s.leases| <==>
                  forall name <- g.required :: name in g.handles && g.handles[name] < |s.handles| && s.handles[g.handles[name]].state.Connected?)
            && (s' != s ==> s'.leases == s.leases + [Lease(s.current.value, false)] && s'.handles == s.handles)
  {
  }

  // ----- leases over runs -----

  /** The current generation requires exactly those of its servers whose declaration says so. */
  ghost predicate RequiresDeclared(s: State) {
    s.current.Some? && s.current.value < |s.generations| ==>
      var g := s.generations[s.current.value];
      Filed(s.handles, g.handles) && forall name :: name in g.required <==> name in g.handles && s.handles[g.handles[name]].server.required
  }

  lemma InstalledRequiresDeclared(handles: seq<Handle>, entries: map<string, nat>, servers: seq<Server>, name: string)
    requires Serves(handles, entries, servers)
    ensures name in entries ==> entries[name] < |handles|
    ensures name in RequiredNames(servers) <==> name in entries && handles[entries[name]].server.required
  {
    RequiredAreRequired(servers, name);
    if name in entries {
      var i :| 0 <= i < |servers| && servers[i].name == name;
    }
  }

  lemma CommitRequiresDeclared(s: State)
    requires Inv(s) && TakesDesired(s) && Enabled(s, CommitReconcile)
    ensures RequiresDeclared(Next(s, CommitReconcile))
  {
    var s' := Next(s, CommitReconcile);
    CommitInstalls(s);
    NextTakesDesired(s, CommitReconcile);
    NextKeepsInv(s, CommitReconcile);
    ServesStill(s.handles, s'.handles, s.reconcile.taken, s.reconcile.desired);
    forall name ensures name in RequiredNames(s.reconcile.desired) <==> name in s.reconcile.taken && s'.handles[s.reconcile.taken[name]].server.required {
      InstalledRequiresDeclared(s'.handles, s.reconcile.taken, s.reconcile.desired, name);
    }
  }

  /** No other step changes what the current generation holds or requires. */
  lemma OthersKeepCurrent(s: State, e: Event)
    requires Inv(s) && Enabled(s, e) && !e.CommitReconcile? && !e.BeginReconcile? && s.current.Some?
    ensures var s' := Next(s, e);
            && s'.current == s.current && s.current.value < |s.generations| && |s'.generations| == |s.generations|
            && s'.generations[s.current.value].handles == s.generations[s.current.value].handles
            && s'.generations[s.current.value].required == s.generations[s.current.value].required
  {
  }

  lemma NextRequiresDeclared(s: State, e: Event)
    requires Inv(s) && TakesDesired(s) && RequiresDeclared(s) && Enabled(s, e)
    ensures RequiresDeclared(Next(s, e))
  {
    NextKeepsInv(s, e);
    if e.CommitReconcile? {
      CommitRequiresDeclared(s);
    } else if e.BeginReconcile? {
      var connecting := s.(reconcile := Connecting(e.config, e.desired, map[], {}));
      assert [] + e.desired == e.desired;
      TakeAllServes(connecting, [], e.desired, e.force);
      TakeAllLeavesGenerations(connecting, e.desired, e.force);
      if s.current.Some? { StillDeclared(s, Next(s, e)); }
    } else if s.current.Some? {
      OthersKeepCurrent(s, e);
      NextTakesDesired(s, e);
      StillDeclared(s, Next(s, e));
    } else {
      NoCurrentStays(s, e);
    }
  }

  lemma NoCurrentStays(s: State, e: Event)
    requires Inv(s) && Enabled(s, e) && !e.CommitReconcile? && !e.BeginReconcile? && s.current.None?
    ensures Next(s, e).current.None?
  {
  }

  lemma StillDeclared(s: State, s': State)
    requires Inv(s) && Inv(s') && RequiresDeclared(s) && KeepsServers(s.handles, s'.handles)
    requires s.current.Some? && s'.current == s.current && s.current.value < |s.generations| && s.current.value < |s'.generations|
    requires s'.generations[s.current.value].handles == s.generations[s.current.value].handles
    requires s'.generations[s.current.value].required == s.generations[s.current.value].required
    ensures RequiresDeclared(s')
  {
  }

  lemma {:induction false} RunRequiresDeclared(s: State, events: seq<Event>)
    requires Inv(s) && TakesDesired(s) && RequiresDeclared(s) && Possible(s, events)
    ensures RequiresDeclared(RunAll(s, events))
    decreases |events|
  {
    if events != [] {
      NextRequiresDeclared(s, events[0]);
      NextKeepsInv(s, events[0]);
      NextKeepsTakesDesired(s, events[0]);
      RunRequiresDeclared(Next(s, events[0]), events[1..]);
    }
  }

  /** In every reachable state, a turn that asks for a lease gets it, on the current generation, if and only if each
      server of that generation whose declaration says it is required is connected at that moment. */
  lemma LeaseGrantedExactlyWhen(events: seq<Event>)
    requires Possible(EMPTY, events) && Enabled(RunAll(EMPTY, events), AcquireLease)
    ensures var s := RunAll(EMPTY, events);
            var s' := Next(s, AcquireLease);
            var g := s.generations[s.current.value];
            && Filed(s.handles, g.handles)
            && (s'.leases == s.leases + [Lease(s.current.value, false)] <==>
                  forall name :: name in g.handles && s.handles[g.handles[name]].server.required ==> s.handles[g.handles[name]].state.Connected?)
            && (s'.leases == s.leases + [Lease(s.current.value, false)] || s' == s)
  {
    assert Inv(EMPTY);
    ReachableInv(EMPTY, events);
    RunRequiresDeclared(EMPTY, events);
    var s := RunAll(EMPTY, events);
    var g := s.generations[s.current.value];
    assert Available(s, g) <==> forall name :: name in g.handles && s.handles[g.handles[name]].server.required ==> s.handles[g.handles[name]].state.Connected?;
    LeaseNeedsRequired(s);
  }
}
