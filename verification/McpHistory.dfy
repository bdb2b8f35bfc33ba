/** What the events of a run say about a handle: whether it counts as connected, and so whether a turn gets a lease. */
module McpHistory {
  import opened Options
  import opened McpConnectionManager
  import opened McpOwnership
  import opened McpGenerations

  /** The state after `events`, the last event last. */
  ghost function Reached(events: seq<Event>): State {
    if events == [] then EMPTY
    else
      var s := Reached(events[..|events| - 1]);
      var e := events[|events| - 1];
      if Enabled(s, e) then Next(s, e) else s
  }

  lemma {:induction false} LastStep(s: State, events: seq<Event>, e: Event)
    requires Possible(s, events + [e])
    ensures Possible(s, events) && Enabled(RunAll(s, events), e) && RunAll(s, events + [e]) == Next(RunAll(s, events), e)
    decreases |events|
  {
    if events == [] {
      assert ([] + [e])[1..] == [];
    } else {
      assert (events + [e])[0] == events[0] && (events + [e])[1..] == events[1..] + [e];
      LastStep(Next(s, events[0]), events[1..], e);
    }
  }

  lemma {:induction false} ReachedIsRun(events: seq<Event>)
    requires Possible(EMPTY, events)
    ensures Reached(events) == RunAll(EMPTY, events)
    ensures events != [] ==>
              var front := events[..|events| - 1];
              Possible(EMPTY, front) && Enabled(Reached(front), events[|events| - 1]) && Reached(events) == Next(Reached(front), events[|events| - 1])
    decreases |events|
  {
    if events != [] {
      var front, e := events[..|events| - 1], events[|events| - 1];
      assert events == front + [e];
      LastStep(EMPTY, front, e);
      ReachedIsRun(front);
    }
  }

  // ----- what can happen to a handle -----

  /** The attempt of the reconcile in flight to connect this handle has this outcome. */
  ghost predicate Attempted(s: State, e: Event, h: nat, success: bool) {
    && e.FinishConnect? && (e.outcome.Success? <==> success)
    && s.reconcile.Connecting? && e.name in s.reconcile.taken && s.reconcile.taken[e.name] == h
  }

  /** The current generation has the handle, under whatever name. */
  ghost predicate InCurrent(s: State, h: nat) {
    && s.current.Some? && s.current.value < |s.generations|
    && exists name :: name in s.generations[s.current.value].handles && s.generations[s.current.value].handles[name] == h
  }

  /** The handle is lost while the current generation has it: its connection closes or, as far as `auth` is asked
      about, its authentication is refused. */
  ghost predicate Lost(s: State, e: Event, h: nat, auth: bool) {
    (e == Closed(h) || (auth && e == AuthRequired(h))) && InCurrent(s, h)
  }

  /** Event `k` is the successful attempt to connect `h`, and no later one lost it. */
  ghost predicate UpSince(events: seq<Event>, h: nat, auth: bool, k: nat) {
    && k < |events| && Attempted(Reached(events[..k]), events[k], h, true)
    && forall j :: k < j < |events| ==> !Lost(Reached(events[..j]), events[j], h, auth)
  }

  ghost predicate Up(events: seq<Event>, h: nat, auth: bool) { exists k: nat :: UpSince(events, h, auth, k) }

  // ----- one event more -----

  lemma UpNow(events: seq<Event>, e: Event, h: nat, auth: bool)
    requires Attempted(Reached(events), e, h, true)
    ensures Up(events + [e], h, auth)
  {
    assert (events + [e])[..|events|] == events;
    assert UpSince(events + [e], h, auth, |events|);
  }

  lemma StillUp(events: seq<Event>, e: Event, h: nat, auth: bool, k: nat)
    requires UpSince(events, h, auth, k) && !Lost(Reached(events), e, h, auth)
    ensures UpSince(events + [e], h, auth, k)
  {
    var more := events + [e];
    assert more[..k] == events[..k];
    forall j | k < j < |more| ensures !Lost(Reached(more[..j]), more[j], h, auth) {
      if j < |events| { assert more[..j] == events[..j]; } else { assert more[..j] == events; }
    }
  }

  lemma WasUp(events: seq<Event>, e: Event, h: nat, auth: bool, k: nat)
    requires UpSince(events + [e], h, auth, k)
    ensures if k == |events| then Attempted(Reached(events), e, h, true)
            else UpSince(events, h, auth, k) && !Lost(Reached(events), e, h, auth)
  {
    var more := events + [e];
    assert more[..|events|] == events;
    if k < |events| {
      assert more[..k] == events[..k];
      forall j | k < j < |events| ensures !Lost(Reached(events[..j]), events[j], h, auth) {
        assert more[..j] == events[..j];
        assert !Lost(Reached(more[..j]), more[j], h, auth);
      }
      assert !Lost(Reached(more[..|events|]), more[|events|], h, auth);
    }
  }

  lemma UpGrows(events: seq<Event>, e: Event, h: nat, auth: bool)
    ensures Up(events + [e], h, auth) <==> Attempted(Reached(events), e, h, true) || (Up(events, h, auth) && !Lost(Reached(events), e, h, auth))
  {
    if Attempted(Reached(events), e, h, true) { UpNow(events, e, h, auth); }
    if k: nat :| UpSince(events, h, auth, k) && !Lost(Reached(events), e, h, auth) { StillUp(events, e, h, auth, k); }
    if k: nat :| UpSince(events + [e], h, auth, k) { WasUp(events, e, h, auth, k); }
  }

  // ----- what one step does to the states of the handles -----

  /** What is still being connected is new: nobody uses it yet. */
  ghost predicate PendingIsNew(s: State) {
    s.reconcile.Connecting? ==>
      forall name :: name in s.reconcile.pending ==>
        && name in s.reconcile.taken && s.reconcile.taken[name] < |s.handles|
        && s.handles[s.reconcile.taken[name]].state.Starting? && !s.handles[s.reconcile.taken[name]].connected
        && !InCurrent(s, s.reconcile.taken[name])
  }

  ghost predicate SameStanding(a: Handle, b: Handle) { a.state == b.state && a.connected == b.connected && a.dirty == b.dirty }

  ghost predicate New(h: Handle) { h.state.Starting? && !h.connected && !h.dirty && h.owners == 1 }

  /** Handles taken over keep their standing, the others are new. */
  ghost predicate Takes(s: State, s': State) {
    && |s.handles| <= |s'.handles| && s'.generations == s.generations && s'.current == s.current
    && (forall h :: 0 <= h < |s.handles| ==> SameStanding(s'.handles[h], s.handles[h]))
    && (forall h :: |s.handles| <= h < |s'.handles| ==> New(s'.handles[h]))
    && s'.reconcile.Connecting?
    && forall name :: name in s'.reconcile.pending ==>
         name in s'.reconcile.taken && |s.handles| <= s'.reconcile.taken[name] < |s'.handles|
  }

  lemma {:induction false} TakeAllTakes(start: State, s: State, servers: seq<Server>, force: bool)
    requires s.reconcile.Connecting? && DistinctNames(servers) && Takes(start, s)
    requires forall i :: 0 <= i < |servers| ==> servers[i].name !in s.reconcile.taken
    requires s.current.Some? && s.current.value < |s.generations| ==>
               forall name :: name in s.generations[s.current.value].handles ==> s.generations[s.current.value].handles[name] < |start.handles|
    ensures Takes(start, TakeAll(s, servers, force))
    decreases |servers|
  {
    if servers != [] {
      TakeAllTakes(start, TakeOne(s, servers[0], force), servers[1..], force);
    }
  }

  lemma OthersKeepStanding(s: State, e: Event, h: nat)
    requires Inv(s) && Enabled(s, e) && (e.CommitReconcile? || e.SettleReconcile? || e.AcquireLease? || e.ReleaseLease?)
    requires h < |s.handles|
    ensures h < |Next(s, e).handles| && SameStanding(Next(s, e).handles[h], s.handles[h]) && |Next(s, e).handles| == |s.handles|
  {
  }

  lemma CurrentIsNamed(s: State, h: nat)
    requires Inv(s) && h < |s.handles|
    ensures IsCurrent(s, h) <==> InCurrent(s, h)
    ensures InCurrent(s, h) ==> !s.handles[h].closing
  {
    if InCurrent(s, h) {
      var g := s.current.value;
      var name :| name in s.generations[g].handles && s.generations[g].handles[name] == h;
      HolderCounts(s.generations, g, name, h);
    }
  }

  lemma BeginTakes(s: State, e: Event)
    requires Inv(s) && Enabled(s, e) && e.BeginReconcile?
    ensures Takes(s, Next(s, e)) && PendingIsNew(Next(s, e))
  {
    var start := s.(reconcile := Connecting(e.config, e.desired, map[], {}));
    TakeAllTakes(start, start, e.desired, e.force);
  }

  /** Which handles count as connected after a step, and which have a connection. */
  lemma StandingAfter(s: State, e: Event, h: nat)
    requires Inv(s) && PendingIsNew(s) && Enabled(s, e) && h < |s.handles|
    ensures var s' := Next(s, e);
            && h < |s'.handles|
            && (s'.handles[h].state.Connected? <==> Attempted(s, e, h, true) || (s.handles[h].state.Connected? && !Lost(s, e, h, true)))
            && (s'.handles[h].connected <==> Attempted(s, e, h, true) || (s.handles[h].connected && !Lost(s, e, h, false)))
  {
    CurrentIsNamed(s, h);
    if e.BeginReconcile? { BeginTakes(s, e); }
    else if e.CommitReconcile? || e.SettleReconcile? || e.AcquireLease? || e.ReleaseLease? { OthersKeepStanding(s, e, h); }
  }

  lemma NothingNew(s: State, e: Event)
    requires Inv(s) && Enabled(s, e) && !e.BeginReconcile?
    ensures |Next(s, e).handles| == |s.handles|
  {
  }

  lemma PendingStaysNew(s: State, e: Event)
    requires Inv(s) && PendingIsNew(s) && Enabled(s, e)
    ensures PendingIsNew(Next(s, e))
  {
    if e.BeginReconcile? {
      BeginTakes(s, e);
    } else if e.CommitReconcile? || e.SettleReconcile? {
    } else if s.reconcile.Connecting? {
      NextTakesDesiredOnly(s, e);
      forall name | name in Next(s, e).reconcile.pending ensures NewStill(s, Next(s, e), s.reconcile.taken[name]) {
        PendingHandleStaysNew(s, e, name);
      }
    }
  }

  ghost predicate NewStill(s: State, s': State, h: nat) {
    h < |s'.handles| && s'.handles[h].state.Starting? && !s'.handles[h].connected && !InCurrent(s', h)
  }

  lemma NextTakesDesiredOnly(s: State, e: Event)
    requires Inv(s) && Enabled(s, e) && s.reconcile.Connecting? && !e.BeginReconcile? && !e.CommitReconcile? && !e.SettleReconcile?
    ensures Next(s, e).reconcile.Connecting? && Next(s, e).reconcile.taken == s.reconcile.taken
    ensures Next(s, e).reconcile.pending == if e.FinishConnect? then s.reconcile.pending - {e.name} else s.reconcile.pending
  {
  }

  lemma PendingHandleStaysNew(s: State, e: Event, name: string)
    requires Inv(s) && PendingIsNew(s) && Enabled(s, e) && s.reconcile.Connecting?
    requires !e.BeginReconcile? && !e.CommitReconcile? && !e.SettleReconcile?
    requires name in s.reconcile.pending && (e.FinishConnect? ==> e.name != name)
    ensures NewStill(s, Next(s, e), s.reconcile.taken[name])
  {
    var h := s.reconcile.taken[name];
    CurrentIsNamed(s, h);
    if e.AcquireLease? || e.ReleaseLease? { OthersKeepStanding(s, e, h); }
    if s.current.Some? { OthersKeepCurrent(s, e); } else { NoCurrentStays(s, e); }
  }

  // ----- over all runs -----

  /** What is recorded of each handle is what its history says. */
  ghost predicate Tracked(events: seq<Event>) {
    var s := Reached(events);
    && PendingIsNew(s)
    && forall h: nat ::
         if h < |s.handles| then (s.handles[h].state.Connected? <==> Up(events, h, true)) && (s.handles[h].connected <==> Up(events, h, false))
         else !Up(events, h, true) && !Up(events, h, false)
  }

  lemma StepTracked(events: seq<Event>, e: Event)
    requires Tracked(events) && Inv(Reached(events)) && Enabled(Reached(events), e)
    ensures Tracked(events + [e])
  {
    var s, more := Reached(events), events + [e];
    assert more[..|events|] == events;
    var s' := Next(s, e);
    PendingStaysNew(s, e);
    forall h: nat
      ensures if h < |s'.handles| then (s'.handles[h].state.Connected? <==> Up(more, h, true)) && (s'.handles[h].connected <==> Up(more, h, false))
              else !Up(more, h, true) && !Up(more, h, false)
    {
      UpGrows(events, e, h, true);
      UpGrows(events, e, h, false);
      if h < |s.handles| {
        StandingAfter(s, e, h);
      } else {
        if e.BeginReconcile? { BeginTakes(s, e); } else { NothingNew(s, e); }
      }
    }
  }

  lemma {:induction false} EveryRunIsTracked(events: seq<Event>)
    requires Possible(EMPTY, events)
    ensures Tracked(events) && Inv(Reached(events)) && Reached(events) == RunAll(EMPTY, events)
    decreases |events|
  {
    ReachedIsRun(events);
    if events == [] {
      assert Inv(EMPTY);
      forall h: nat, auth ensures !Up([], h, auth) { if k: nat :| UpSince([], h, auth, k) { assert false; } }
    } else {
      var front, e := events[..|events| - 1], events[|events| - 1];
      assert events == front + [e];
      EveryRunIsTracked(front);
      StepTracked(front, e);
      NextKeepsInv(Reached(front), e);
    }
  }

  /** In every run a handle counts as connected if and only if its attempt to connect succeeded and it was not lost
      since: while the current generation had it, its connection did not close and its authentication was not refused. */
  lemma ConnectedExactlyWhen(events: seq<Event>, h: nat)
    requires Possible(EMPTY, events) && h < |RunAll(EMPTY, events).handles|
    ensures RunAll(EMPTY, events).handles[h].state.Connected? <==> Up(events, h, true)
    ensures RunAll(EMPTY, events).handles[h].connected <==> Up(events, h, false)
  {
    EveryRunIsTracked(events);
  }

  /** Main result on leases, told by the events alone: a turn gets a lease, on the current generation, if and only if
      each server there whose declaration says it is required was connected and has not been lost since. */
  lemma LeaseGrantedExactlyWhenUp(events: seq<Event>)
    requires Possible(EMPTY, events) && Enabled(RunAll(EMPTY, events), AcquireLease)
    ensures var s := RunAll(EMPTY, events);
            var g := s.generations[s.current.value];
            && Filed(s.handles, g.handles)
            && (Next(s, AcquireLease).leases == s.leases + [Lease(s.current.value, false)] <==>
                  forall name :: name in g.handles && s.handles[g.handles[name]].server.required ==> Up(events, g.handles[name], true))
            && (Next(s, AcquireLease).leases == s.leases + [Lease(s.current.value, false)] || Next(s, AcquireLease) == s)
  {
    LeaseGrantedExactlyWhen(events);
    EveryRunIsTracked(events);
  }

  // ----- which handles are fit for the next generation -----

  /** The handle is lost, or the catalogue behind it changes, while the current generation has it. */
  ghost predicate Spoils(s: State, e: Event, h: nat) {
    Lost(s, e, h, true) || (e.Catalog? && h < |s.handles| && InCurrent(s, h) && s.handles[h].server.name == e.name && s.handles[h].connected)
  }

  ghost predicate SpoiledAt(events: seq<Event>, h: nat, k: nat) {
    k < |events| && h < |Reached(events[..k]).handles| && Spoils(Reached(events[..k]), events[k], h)
  }

  ghost predicate Spoiled(events: seq<Event>, h: nat) { exists k: nat :: SpoiledAt(events, h, k) }

  lemma SpoiledGrows(events: seq<Event>, e: Event, h: nat)
    ensures Spoiled(events + [e], h) <==> Spoiled(events, h) || (h < |Reached(events).handles| && Spoils(Reached(events), e, h))
  {
    var more := events + [e];
    assert more[..|events|] == events;
    if k: nat :| SpoiledAt(events, h, k) {
      assert more[..k] == events[..k];
      assert SpoiledAt(more, h, k);
    }
    if h < |Reached(events).handles| && Spoils(Reached(events), e, h) { assert SpoiledAt(more, h, |events|); }
    if k: nat :| SpoiledAt(more, h, k) && k < |events| {
      assert more[..k] == events[..k];
      assert SpoiledAt(events, h, k);
    }
  }

  lemma DirtyAfter(s: State, e: Event, h: nat)
    requires Inv(s) && PendingIsNew(s) && Enabled(s, e) && h < |s.handles|
    ensures h < |Next(s, e).handles| && (Next(s, e).handles[h].dirty <==> s.handles[h].dirty || Spoils(s, e, h))
  {
    CurrentIsNamed(s, h);
    if e.BeginReconcile? { BeginTakes(s, e); }
    else if e.CommitReconcile? || e.SettleReconcile? || e.AcquireLease? || e.ReleaseLease? { OthersKeepStanding(s, e, h); }
  }

  lemma {:induction false} DirtyExactlyWhen(events: seq<Event>, h: nat)
    requires Possible(EMPTY, events)
    ensures if h < |Reached(events).handles| then Reached(events).handles[h].dirty <==> Spoiled(events, h) else !Spoiled(events, h)
    decreases |events|
  {
    if events == [] {
      if k: nat :| SpoiledAt([], h, k) { assert false; }
    } else {
      var front, e := events[..|events| - 1], events[|events| - 1];
      assert events == front + [e];
      ReachedIsRun(events);
      EveryRunIsTracked(front);
      DirtyExactlyWhen(front, h);
      SpoiledGrows(front, e, h);
      if h < |Reached(front).handles| { DirtyAfter(Reached(front), e, h); }
      else if e.BeginReconcile? { BeginTakes(Reached(front), e); }
    }
  }

  /** The handle the current generation has for a server, declared alike, never spoiled and, when forced, up. */
  ghost predicate Fit(events: seq<Event>, server: Server, force: bool, h: nat) {
    var s := Reached(events);
    && s.current.Some? && s.current.value < |s.generations| && h < |s.handles|
    && server.name in s.generations[s.current.value].handles && s.generations[s.current.value].handles[server.name] == h
    && s.handles[h].server == server && !Spoiled(events, h) && (force ==> Up(events, h, true))
  }

  lemma BeginReuses(s: State, config: int, desired: seq<Server>, force: bool, i: nat)
    requires Inv(s) && Enabled(s, BeginReconcile(config, desired, force)) && i < |desired|
    ensures var s' := Begin(s, config, desired, force);
            && s'.reconcile.Connecting? && desired[i].name in s'.reconcile.taken
            && var h := s'.reconcile.taken[desired[i].name];
            && h < |s'.handles|
            && (h < |s.handles| ==> ServesOn(s, desired[i], force, h))
            && (forall p: nat :: ServesOn(s, desired[i], force, p) ==> h == p)
            && (h >= |s.handles| ==> s'.handles[h].server == desired[i] && desired[i].name in s'.reconcile.pending)
  {
    var start := s.(reconcile := Connecting(config, desired, map[], {}));
    ReuseIsClean(start, desired, force, i);
    BeginTakes(s, BeginReconcile(config, desired, force));
    assert forall p: nat :: ServesOn(start, desired[i], force, p) <==> ServesOn(s, desired[i], force, p);
  }

  lemma FitServesOn(events: seq<Event>, server: Server, force: bool, p: nat)
    requires Possible(EMPTY, events)
    ensures Fit(events, server, force, p) <==> ServesOn(Reached(events), server, force, p)
  {
    EveryRunIsTracked(events);
    DirtyExactlyWhen(events, p);
  }

  /** In every run a reconcile serves a server on by the handle it has if and only if that is fit, told by its history;
      otherwise it opens a new one, which is pending. */
  lemma ReusedExactlyWhenFit(events: seq<Event>, config: int, desired: seq<Server>, force: bool, i: nat)
    requires Possible(EMPTY, events) && Enabled(RunAll(EMPTY, events), BeginReconcile(config, desired, force)) && i < |desired|
    ensures var s := RunAll(EMPTY, events);
            var s' := Next(s, BeginReconcile(config, desired, force));
            && s'.reconcile.Connecting? && desired[i].name in s'.reconcile.taken
            && var h := s'.reconcile.taken[desired[i].name];
            && h < |s'.handles|
            && (h < |s.handles| <==> exists p: nat :: Fit(events, desired[i], force, p))
            && (h < |s.handles| ==> Fit(events, desired[i], force, h))
            && (h >= |s.handles| ==> s'.handles[h].server == desired[i] && desired[i].name in s'.reconcile.pending)
  {
    EveryRunIsTracked(events);
    BeginReuses(Reached(events), config, desired, force, i);
    forall p: nat ensures Fit(events, desired[i], force, p) <==> ServesOn(Reached(events), desired[i], force, p) {
      FitServesOn(events, desired[i], force, p);
    }
  }

  // ----- what is lost too early is missed -----

  /** Why an attempt or a loss leaves a handle unconnected is recorded with it, and a spoiled handle lets the next
      request reconcile again, whatever configuration it finds. */
  lemma LossIsRecorded(s: State, e: Event, h: nat)
    requires Inv(s) && PendingIsNew(s) && Enabled(s, e) && h < |s.handles|
    ensures var s' := Next(s, e);
            && h < |s'.handles|
            && (Attempted(s, e, h, false) ==> s'.handles[h].state == if e.outcome.needsAuth then NeedsAuth else McpConnectionManager.Failed)
            && (InCurrent(s, h) && e == Closed(h) ==> s'.handles[h].state == McpConnectionManager.Failed)
            && (InCurrent(s, h) && e == AuthRequired(h) ==> s'.handles[h].state == NeedsAuth)
    ensures Spoils(s, e, h) && s.reconcile.Idle? ==>
              forall config: int, desired :: config >= 0 && DistinctNames(desired) ==> Enabled(Next(s, e), BeginReconcile(config, desired, false))
  {
    StandingAfter(s, e, h);
    CurrentIsNamed(s, h);
  }

  lemma EarlyLossIsMissed(s: State, e: Event, h: nat)
    requires Inv(s) && Enabled(s, e) && (e == Closed(h) || e == AuthRequired(h)) && !InCurrent(s, h)
    ensures Next(s, e) == s
  {
    CurrentIsNamed(s, h);
  }

  lemma RunOne(s: State, e: Event, events: seq<Event>)
    requires Enabled(s, e) && Possible(Next(s, e), events)
    ensures Possible(s, [e] + events) && RunAll(s, [e] + events) == RunAll(Next(s, e), events)
  {
    assert ([e] + events)[1..] == events;
  }

  function TakenState(server: Server, handle: Handle, pending: set<string>): State {
    State([handle], [], None, Connecting(0, [server], map[server.name := 0], pending), [])
  }

  function InstalledState(server: Server, handle: Handle): State {
    State([handle], [Generation(0, map[server.name := 0], [server.name], 0, false)], Some(0), Settling, [])
  }

  lemma OneIsTaken(server: Server)
    ensures Next(EMPTY, BeginReconcile(0, [server], false)) == TakenState(server, Handle(server, Starting, false, 1, false, false, 0), {server.name})
  {
    var start, n := EMPTY.(reconcile := Connecting(0, [server], map[], {})), server.name;
    var taking := Open(start, server);
    assert [server][1..] == [] && TakeOne(start, server, false) == taking;
    assert TakeAll(taking, [], false) == taking && TakeAll(start, [server], false) == TakeAll(taking, [server][1..], false);
    assert map[][n := 0] == map[n := 0] && {} + {n} == {n};
  }

  lemma OneIsInstalled(server: Server, handle: Handle)
    requires server.required
    ensures Next(TakenState(server, handle, {}), CommitReconcile) == InstalledState(server, handle)
  {
    assert RequiredNames([]) == [] && RequiredNames([server]) == [server.name] + RequiredNames([server][1..]);
    assert RequiredNames([server]) == [server.name];
  }

  lemma OneIsLeased(server: Server, handle: Handle)
    requires handle.state.Connected?
    ensures Possible(InstalledState(server, handle), [AcquireLease] + []) && RunAll(InstalledState(server, handle), [AcquireLease] + []).leases == [Lease(0, false)]
  {
    RunOne(InstalledState(server, handle), AcquireLease, []);
  }

  /** A connection that closes between its attempt and the installation of its generation goes on counting as connected,
      and a turn that requires it gets its lease. */
  lemma EarlyCloseLeases(server: Server)
    requires server.required
    ensures var events := [BeginReconcile(0, [server], false), FinishConnect(server.name, Success), Closed(0), CommitReconcile, AcquireLease];
            Possible(EMPTY, events) && RunAll(EMPTY, events).leases == [Lease(0, false)]
  {
    var e0, e1 := BeginReconcile(0, [server], false), FinishConnect(server.name, Success);
    var up := Handle(server, Connected, true, 1, false, false, 0);
    OneIsTaken(server);
    var s1, s2 := Next(EMPTY, e0), TakenState(server, up, {});
    assert {server.name} - {server.name} == {};
    assert Next(s1, e1) == s2 && Next(s2, Closed(0)) == s2;
    OneIsInstalled(server, up);
    OneIsLeased(server, up);
    RunOne(s2, CommitReconcile, [AcquireLease] + []);
    RunOne(s2, Closed(0), [CommitReconcile] + ([AcquireLease] + []));
    RunOne(s1, e1, [Closed(0)] + ([CommitReconcile] + ([AcquireLease] + [])));
    RunOne(EMPTY, e0, [e1] + ([Closed(0)] + ([CommitReconcile] + ([AcquireLease] + []))));
    assert [e0] + ([e1] + ([Closed(0)] + ([CommitReconcile] + ([AcquireLease] + [])))) == [e0, e1, Closed(0), CommitReconcile, AcquireLease];
  }
}
