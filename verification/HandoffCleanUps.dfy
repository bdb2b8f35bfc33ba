/** Acknowledgements that overlap: several clean-ups look positions up in one stash list and drop them later. */
module HandoffCleanUps {
  import opened Options
  import opened Faults
  import opened Git
  import opened HandoffRepository
  import opened GitHandoffCoordinator
  import opened HandoffRecovery
  import opened HandoffFinalize

  /** `at` is the position found for the first id still to be dropped; `moved` is set once an entry at or before that
      position has gone since. */
  datatype Cleaner = Cleaner(todo: seq<nat>, at: Option<nat>, moved: bool)

  datatype State = State(stashes: seq<Stash>, cleaners: seq<Cleaner>)

  /** `ok` says whether Git carries the command out. */
  datatype Event = Enter(journal: Journal) | LookUp(i: nat, ok: bool) | DropAt(i: nat, ok: bool)

  function Todo(j: Journal): seq<nat> {
    (if j.sourceStashRef.Some? then [j.sourceStashRef.value] else []) +
    (if j.destinationStashApplied && j.destinationStashRef.Some? then [j.destinationStashRef.value] else [])
  }

  predicate Enabled(s: State, e: Event) {
    match e
    case Enter(_) => true
    case LookUp(i, _) => i < |s.cleaners| && s.cleaners[i].todo != [] && s.cleaners[i].at.None?
    case DropAt(i, _) => i < |s.cleaners| && s.cleaners[i].todo != [] && s.cleaners[i].at.Some?
  }

  function Next(c: Cleaner): Cleaner
    requires c.todo != []
  {
    Cleaner(c.todo[1..], None, false)
  }

  /** What the drop of position `p` does to the others. */
  function Shifted(cleaners: seq<Cleaner>, p: nat): seq<Cleaner> {
    seq(|cleaners|, i requires 0 <= i < |cleaners| =>
      if cleaners[i].at.Some? && p <= cleaners[i].at.value then cleaners[i].(moved := true) else cleaners[i])
  }

  /** The drop of cleaner `i` would take an entry away. */
  predicate Takes(s: State, e: Event)
    requires Enabled(s, e)
  {
    e.DropAt? && e.ok && s.cleaners[e.i].at.value < |s.stashes|
  }

  function After(s: State, e: Event): State
    requires Enabled(s, e)
  {
    match e
    case Enter(journal) => s.(cleaners := s.cleaners + [Cleaner(Todo(journal), None, false)])
    case LookUp(i, ok) =>
      var c := s.cleaners[i];
      var found := IndexOf(s.stashes, c.todo[0]);
      s.(cleaners := s.cleaners[i := if ok && found.Some? then c.(at := found, moved := false) else Next(c)])
    case DropAt(i, ok) =>
      var p := s.cleaners[i].at.value;
      if Takes(s, e) then State(s.stashes[..p] + s.stashes[p + 1..], Shifted(s.cleaners, p)[i := Next(s.cleaners[i])])
      else s.(cleaners := s.cleaners[i := Next(s.cleaners[i])])
  }

  // ----- whose entry a position holds -----

  /** Without a move the position holds its entry; with one, only older entries. */
  ghost predicate Placed(stashes: seq<Stash>, c: Cleaner) {
    c.todo != [] && c.at.Some? ==>
      var p := c.at.value;
      if c.moved then p < |stashes| ==> stashes[p].oid < c.todo[0] else p < |stashes| && stashes[p].oid == c.todo[0]
  }

  ghost predicate Inv(s: State, bound: nat) {
    Ordered(s.stashes, bound) && forall c <- s.cleaners :: Placed(s.stashes, c)
  }

  lemma PlacedAcrossDrop(stashes: seq<Stash>, bound: nat, c: Cleaner, p: nat)
    requires Ordered(stashes, bound) && Placed(stashes, c) && p < |stashes|
    ensures Placed(stashes[..p] + stashes[p + 1..], if c.at.Some? && p <= c.at.value then c.(moved := true) else c)
  {
    var rest := stashes[..p] + stashes[p + 1..];
    if c.todo != [] && c.at.Some? && c.at.value < |rest| {
      var q := c.at.value;
      assert rest[q] == if q < p then stashes[q] else stashes[q + 1];
    }
  }

  lemma DropStaysOrdered(stashes: seq<Stash>, bound: nat, p: nat)
    requires Ordered(stashes, bound) && p < |stashes|
    ensures Ordered(stashes[..p] + stashes[p + 1..], bound)
  {
  }

  lemma DropKeepsInv(s: State, bound: nat, e: Event)
    requires Inv(s, bound) && Enabled(s, e) && Takes(s, e)
    ensures Inv(After(s, e), bound)
  {
    var p := s.cleaners[e.i].at.value;
    DropStaysOrdered(s.stashes, bound, p);
    var t := After(s, e);
    forall c | c in t.cleaners ensures Placed(t.stashes, c) {
      var i :| 0 <= i < |t.cleaners| && t.cleaners[i] == c;
      if i != e.i { PlacedAcrossDrop(s.stashes, bound, s.cleaners[i], p); }
    }
  }

  lemma AfterKeepsInv(s: State, bound: nat, e: Event)
    requires Inv(s, bound) && Enabled(s, e)
    ensures Inv(After(s, e), bound)
  {
    if Takes(s, e) {
      DropKeepsInv(s, bound, e);
    } else {
      var t := After(s, e);
      forall c | c in t.cleaners ensures Placed(t.stashes, c) {
        var i :| 0 <= i < |t.cleaners| && t.cleaners[i] == c;
        if i < |s.cleaners| { assert s.cleaners[i] in s.cleaners; }
      }
    }
  }

  /** A drop takes the entry it is meant for exactly when nothing at or before its position went since it was looked
      up. */
  lemma TakesItsOwnExactlyWhen(s: State, bound: nat, e: Event)
    requires Inv(s, bound) && Enabled(s, e) && Takes(s, e)
    ensures var c := s.cleaners[e.i]; s.stashes[c.at.value].oid == c.todo[0] <==> !c.moved
  {
    assert s.cleaners[e.i] in s.cleaners;
  }

  // ----- whole runs -----

  ghost predicate Possible(s: State, events: seq<Event>)
    decreases |events|
  {
    events != [] ==> Enabled(s, events[0]) && Possible(After(s, events[0]), events[1..])
  }

  function RunAll(s: State, events: seq<Event>): State
    requires Possible(s, events)
    decreases |events|
  {
    if events == [] then s else RunAll(After(s, events[0]), events[1..])
  }

  /** Every clean-up is for ids of `disposable`, and no drop is made at a position that has moved. */
  ghost predicate InStep(s: State, disposable: set<nat>, events: seq<Event>)
    requires Possible(s, events)
    decreases |events|
  {
    events != [] ==>
      && (events[0].Enter? ==> Disposable(events[0].journal) <= disposable)
      && (Takes(s, events[0]) ==> !s.cleaners[events[0].i].moved)
      && InStep(After(s, events[0]), disposable, events[1..])
  }

  ghost predicate Confined(s: State, disposable: set<nat>) {
    forall c <- s.cleaners :: forall oid <- c.todo :: oid in disposable
  }

  lemma AfterConfined(s: State, disposable: set<nat>, e: Event)
    requires Confined(s, disposable) && Enabled(s, e) && (e.Enter? ==> Disposable(e.journal) <= disposable)
    ensures Confined(After(s, e), disposable)
  {
    var t := After(s, e);
    forall c | c in t.cleaners ensures forall oid <- c.todo :: oid in disposable {
      var i :| 0 <= i < |t.cleaners| && t.cleaners[i] == c;
      if i < |s.cleaners| { assert s.cleaners[i] in s.cleaners; }
    }
  }

  /** One step of such a run keeps every other entry, in order. */
  lemma StepKeeps(s: State, bound: nat, disposable: set<nat>, e: Event)
    requires Inv(s, bound) && Confined(s, disposable) && Enabled(s, e) && (Takes(s, e) ==> !s.cleaners[e.i].moved)
    ensures After(s, e).stashes == s.stashes
            || (Takes(s, e) && s.cleaners[e.i].todo[0] in disposable && After(s, e).stashes == Keep(s.stashes, {s.cleaners[e.i].todo[0]}))
  {
    if Takes(s, e) {
      var c := s.cleaners[e.i];
      assert c in s.cleaners;
      TakesItsOwnExactlyWhen(s, bound, e);
      DropByIndex(s.stashes, bound, c.todo[0]);
      OneIndex(s.stashes, bound, c.todo[0], c.at.value);
    }
  }

  lemma {:induction false} OneIndex(stashes: seq<Stash>, bound: nat, oid: nat, p: nat)
    requires Ordered(stashes, bound) && p < |stashes| && stashes[p].oid == oid
    ensures IndexOf(stashes, oid) == Some(p)
  {
    if stashes[0].oid != oid { OneIndex(stashes[1..], bound, oid, p - 1); }
  }

  /** Main result on overlapping clean-ups.  Any number of them, in any order and with any commands refused, take
      nothing but entries they were to take, as long as no position moves between its lookup and its drop. */
  lemma {:induction false} OverlappingCleanUpsKeep(s: State, bound: nat, disposable: set<nat>, events: seq<Event>)
    requires Inv(s, bound) && Confined(s, disposable) && Possible(s, events) && InStep(s, disposable, events)
    ensures exists dropped :: dropped <= disposable && RunAll(s, events).stashes == Keep(s.stashes, dropped)
    decreases |events|
  {
    AbsentIsKept(s.stashes, {});
    if events == [] {
      assert RunAll(s, events).stashes == Keep(s.stashes, {});
    } else {
      var t := After(s, events[0]);
      AfterKeepsInv(s, bound, events[0]);
      AfterConfined(s, disposable, events[0]);
      StepKeeps(s, bound, disposable, events[0]);
      OverlappingCleanUpsKeep(t, bound, disposable, events[1..]);
      var later :| later <= disposable && RunAll(t, events[1..]).stashes == Keep(t.stashes, later);
      if t.stashes == s.stashes {
        assert RunAll(s, events).stashes == Keep(s.stashes, later);
      } else {
        var own := {s.cleaners[events[0].i].todo[0]};
        KeepTwice(s.stashes, own, later);
        assert RunAll(s, events).stashes == Keep(s.stashes, own + later);
      }
    }
  }

  /** A position can move only while another one is waiting to be dropped: clean-ups that take turns are in step. */
  predicate Waiting(s: State) { exists i :: 0 <= i < |s.cleaners| && s.cleaners[i].at.Some? }

  ghost predicate TakingTurns(s: State, events: seq<Event>)
    requires Possible(s, events)
    decreases |events|
  {
    events != [] ==> (events[0].LookUp? ==> !Waiting(s)) && TakingTurns(After(s, events[0]), events[1..])
  }

  /** At most one position is waiting, and it has not moved. */
  ghost predicate OneWaits(s: State) {
    && (forall i, j :: 0 <= i < j < |s.cleaners| ==> s.cleaners[i].at.None? || s.cleaners[j].at.None?)
    && (forall i :: 0 <= i < |s.cleaners| && s.cleaners[i].at.Some? ==> !s.cleaners[i].moved)
  }

  lemma AfterOneWaits(s: State, e: Event)
    requires OneWaits(s) && Enabled(s, e) && (e.LookUp? ==> !Waiting(s))
    ensures OneWaits(After(s, e))
  {
  }

  lemma {:induction false} TurnsAreInStep(s: State, disposable: set<nat>, events: seq<Event>)
    requires OneWaits(s) && Possible(s, events) && TakingTurns(s, events)
    requires forall e <- events :: e.Enter? ==> Disposable(e.journal) <= disposable
    ensures InStep(s, disposable, events)
    decreases |events|
  {
    if events != [] {
      AfterOneWaits(s, events[0]);
      TurnsAreInStep(After(s, events[0]), disposable, events[1..]);
    }
  }

  /** One clean-up alone drops an id as `DropOid` does, whatever is refused. */
  lemma AloneIsDropOid(w: World, oid: nat, rest: seq<nat>)
    ensures var (w1, listed) := Query(w);
            var s := State(w.repo.stashes, [Cleaner([oid] + rest, None, false)]);
            var t := After(s, LookUp(0, listed));
            && t.stashes == s.stashes && (t.cleaners[0].at.Some? <==> listed && IndexOf(s.stashes, oid).Some?)
            && (t.cleaners[0].at.Some? ==>
                  var dropped := Mutate(w1, w1.repo.Drop(t.cleaners[0].at.value)).1;
                  var u := After(t, DropAt(0, dropped));
                  u.stashes == DropOid(w, Some(oid)).0.repo.stashes && u.cleaners == [Cleaner(rest, None, false)])
            && (t.cleaners[0].at.None? ==> DropOid(w, Some(oid)).0.repo.stashes == t.stashes && t.cleaners == [Cleaner(rest, None, false)])
  {
    assert ([oid] + rest)[1..] == rest;
  }

  lemma RunOne(s: State, e: Event, events: seq<Event>)
    requires Enabled(s, e) && Possible(After(s, e), events)
    ensures Possible(s, [e] + events) && RunAll(s, [e] + events) == RunAll(After(s, e), events)
  {
    assert ([e] + events)[1..] == events;
  }

  lemma BothDrop(own: Stash, users: Stash, c: Cleaner)
    requires c == Cleaner([own.oid], Some(0), false)
    ensures var s, events := State([own, users], [c, c]), [DropAt(0, true)] + ([DropAt(1, true)] + []);
            Possible(s, events) && RunAll(s, events).stashes == []
  {
    var s := State([own, users], [c, c]);
    var t := After(s, DropAt(0, true));
    assert t.stashes == [users] && t.cleaners[1] == c.(moved := true);
    assert After(t, DropAt(1, true)).stashes == [];
    RunOne(t, DropAt(1, true), []);
    RunOne(s, DropAt(0, true), [DropAt(1, true)] + []);
  }

  lemma BothLookUp(own: Stash, users: Stash, c: Cleaner, events: seq<Event>)
    requires c == Cleaner([own.oid], None, false)
    requires Possible(State([own, users], [c.(at := Some(0)), c.(at := Some(0))]), events)
    ensures var s, all := State([own, users], [c, c]), [LookUp(0, true)] + ([LookUp(1, true)] + events);
            Possible(s, all) && RunAll(s, all) == RunAll(State([own, users], [c.(at := Some(0)), c.(at := Some(0))]), events)
  {
    var s := State([own, users], [c, c]);
    var t := After(s, LookUp(0, true));
    assert t == State([own, users], [c.(at := Some(0)), c]);
    assert After(t, LookUp(1, true)) == State([own, users], [c.(at := Some(0)), c.(at := Some(0))]);
    RunOne(t, LookUp(1, true), events);
    RunOne(s, LookUp(0, true), [LookUp(1, true)] + events);
  }

  lemma BothEnter(stashes: seq<Stash>, journal: Journal, oid: nat, events: seq<Event>)
    requires Todo(journal) == [oid] && Possible(State(stashes, [Cleaner([oid], None, false), Cleaner([oid], None, false)]), events)
    ensures var s, all := State(stashes, []), [Enter(journal)] + ([Enter(journal)] + events);
            Possible(s, all) && RunAll(s, all) == RunAll(State(stashes, [Cleaner([oid], None, false), Cleaner([oid], None, false)]), events)
  {
    var s, c := State(stashes, []), Cleaner([oid], None, false);
    var t := After(s, Enter(journal));
    assert t.cleaners == [c] && After(t, Enter(journal)).cleaners == [c, c];
    RunOne(t, Enter(journal), events);
    RunOne(s, Enter(journal), [Enter(journal)] + events);
  }

  /** Two acknowledgements of one operation: both look its stash up, both drop the position, and the user's own stash
      behind it is gone. */
  lemma OverlappingCleanUpsLoseAStash(journal: Journal, own: Stash, users: Stash)
    requires journal == EMPTY_JOURNAL.(sourceStashRef := Some(own.oid)) && users.oid < own.oid
    ensures var s := State([own, users], []);
            var events := [Enter(journal), Enter(journal), LookUp(0, true), LookUp(1, true), DropAt(0, true), DropAt(1, true)];
            && Inv(s, own.oid + 1) && Possible(s, events) && RunAll(s, events).stashes == []
  {
    var c := Cleaner([own.oid], None, false);
    var drops := [DropAt(0, true)] + ([DropAt(1, true)] + []);
    var lookUps := [LookUp(0, true)] + ([LookUp(1, true)] + drops);
    BothDrop(own, users, c.(at := Some(0)));
    BothLookUp(own, users, c, drops);
    BothEnter([own, users], journal, own.oid, lookUps);
    assert [Enter(journal)] + ([Enter(journal)] + lookUps) ==
           [Enter(journal), Enter(journal), LookUp(0, true), LookUp(1, true), DropAt(0, true), DropAt(1, true)];
  }
}
