/** Three runs in which overlapping calls lose credentials, with no effect refused. */
module CredentialLosses {
  import opened Options
  import opened CredentialStores
  import opened CredentialSafety
  import opened CredentialOverlap

  // ----- what stray writes do -----

  function Advances(n: nat): seq<Event> { if n == 0 then [] else [Advance] + Advances(n - 1) }

  lemma {:induction false} RunConcat(y: System, a: seq<Event>, b: seq<Event>)
    ensures RunAll(y, a + b) == RunAll(RunAll(y, a), b)
    decreases |a|
  {
    if a == [] {
      assert a + b == b;
    } else {
      assert (a + b)[1..] == a[1..] + b;
      RunConcat(After(y, a[0]), a[1..], b);
    }
  }

  lemma RunOne(y: System, e: Event, events: seq<Event>)
    ensures RunAll(y, [e] + events) == RunAll(After(y, e), events)
  {
    assert ([e] + events)[1..] == events;
  }

  const KEYS := Snapshot(map["key" := Credential("secret", true, true)])
  const QUIET := World((n: nat) => true, 0, KEYS, EMPTY, Some(AuthJson), None, false, AuthJson, false, false, false)

  /** The file store is current.  A move to the encrypted store has requested its write of the selection when somebody
      chooses the file store once more; then everything goes well. */
  function Hasty(): seq<Event> {
    [Restart, CallUpdate(Encrypted)] + Advances(7) + [CallUpdate(AuthJson), Land(true), Advance, Land(true)] + Advances(2)
  }

  /** The process is started again, and somebody chooses the encrypted store. */
  function Retry(): seq<Event> { [Restart, CallUpdate(Encrypted)] + Advances(5) }

  ghost predicate Quiet(w: World) { w.grants == QUIET.grants && w.started && w.kind == AuthJson && w.authInitialized }

  lemma FourSteps(y: System)
    requires Quiet(y.w) && y.move == Some(Move(AuthJson, Encrypted, Ensuring)) && y.w.encrypted == EMPTY
    ensures RunAll(y, Advances(4)) == y.(w := y.w.(clock := y.w.clock + 3), move := Some(Move(AuthJson, Encrypted, Journalling(y.w.authJson))))
  {
  }

  lemma ThreeSteps(y: System)
    requires Quiet(y.w) && y.move == Some(Move(AuthJson, Encrypted, Journalling(KEYS)))
    ensures RunAll(y, Advances(3)) ==
            System(y.w.(clock := y.w.clock + 3, journal := Some(Journal(Prepared, AuthJson, Encrypted)), encrypted := KEYS),
                   Some(Move(AuthJson, Encrypted, Selecting(KEYS))), y.asks + [Ask(Encrypted, true, false)], y.last, y.begun)
  {
    assert Normal(KEYS) == KEYS;
  }

  /** The move has requested its write of the selection. */
  ghost predicate Requested(y: System) {
    && Quiet(y.w) && y.w.authJson == KEYS == y.w.encrypted && y.w.journal == Some(Journal(Prepared, AuthJson, Encrypted))
    && y.move == Some(Move(AuthJson, Encrypted, Selecting(KEYS))) && y.asks == [Ask(Encrypted, true, false)]
  }

  /** The move is over, and the selection was written for its source after it was written for its target. */
  ghost predicate Overtaken(y: System) {
    && y.w.grants == QUIET.grants && y.w.started && y.move.None? && y.asks == []
    && y.w.journal.None? && y.w.selection == Some(AuthJson) && y.w.authJson == EMPTY && y.w.encrypted == KEYS
  }

  ghost predicate Emptied(y: System) {
    y.w.started && y.move.None? && y.w.journal.None? && y.w.authJson == EMPTY == y.w.encrypted
  }

  lemma MoveUpToSelection()
    ensures Requested(RunAll(Idle(QUIET), [Restart, CallUpdate(Encrypted)] + Advances(7)))
  {
    var y0 := After(After(Idle(QUIET), Restart), CallUpdate(Encrypted));
    RunConcat(Idle(QUIET), [Restart, CallUpdate(Encrypted)], Advances(7));
    SevenSteps(y0);
  }

  lemma SevenSteps(y: System)
    requires Quiet(y.w) && y.move == Some(Move(AuthJson, Encrypted, Ensuring)) && y.w.authJson == KEYS && y.w.encrypted == EMPTY && y.asks == []
    ensures Requested(RunAll(y, Advances(7)))
  {
    assert Advances(7) == Advances(4) + Advances(3);
    RunConcat(y, Advances(4), Advances(3));
    FourSteps(y);
    ThreeSteps(RunAll(y, Advances(4)));
    assert [] + [Ask(Encrypted, true, false)] == [Ask(Encrypted, true, false)];
  }

  lemma HastyOvertakes(y: System)
    requires Requested(y)
    ensures Overtaken(RunAll(y, [CallUpdate(AuthJson), Land(true), Advance, Land(true)] + Advances(2)))
  {
    var y1 := After(y, CallUpdate(AuthJson));
    var y2 := After(y1, Land(true));
    assert y1.asks == [Ask(Encrypted, true, false), Ask(AuthJson, false, true)] && y2.asks == [Ask(AuthJson, false, true)];
    RunConcat(y, [CallUpdate(AuthJson), Land(true)], [Advance, Land(true)] + Advances(2));
    assert [CallUpdate(AuthJson), Land(true), Advance, Land(true)] + Advances(2) == [CallUpdate(AuthJson), Land(true)] + ([Advance, Land(true)] + Advances(2));
    SelectedIsOvertaken(y2);
  }

  lemma SelectedIsOvertaken(y: System)
    requires y.w.grants == QUIET.grants && y.w.started && y.w.authInitialized && y.w.encrypted == KEYS
    requires y.move == Some(Move(AuthJson, Encrypted, Selected(KEYS))) && y.asks == [Ask(AuthJson, false, true)]
    ensures Overtaken(RunAll(y, [Advance, Land(true)] + Advances(2)))
  {
    var y1 := After(y, Advance);
    var y2 := After(y1, Land(true));
    RunConcat(y, [Advance, Land(true)], Advances(2));
    assert y2.move == Some(Move(AuthJson, Encrypted, Clearing)) && y2.asks == [];
  }

  lemma RefusedAndCleared(y: System)
    requires y.w.grants == QUIET.grants && y.w.started && y.w.kind == AuthJson && y.w.authJson == EMPTY && y.w.encrypted == KEYS && y.w.journal.None?
    requires y.move == Some(Move(AuthJson, Encrypted, Ensuring))
    ensures Emptied(RunAll(y, Advances(5)))
  {
    assert "key" in KEYS.items;
    assert Advances(5) == Advances(3) + Advances(2);
    RunConcat(y, Advances(3), Advances(2));
    assert RunAll(y, Advances(3)).move == Some(Move(AuthJson, Encrypted, Abandoning));
  }

  lemma RetryEmpties(y: System)
    requires Overtaken(y)
    ensures Initialize(y.w).started && !Serves(y.w, KEYS)
    ensures Emptied(RunAll(y, Retry()))
  {
    assert "key" in KEYS.items;
    RunConcat(y, [Restart, CallUpdate(Encrypted)], Advances(5));
    RefusedAndCleared(After(After(y, Restart), CallUpdate(Encrypted)));
  }

  lemma HastyRun()
    ensures Overtaken(RunAll(Idle(QUIET), Hasty()))
  {
    var first, second := [Restart, CallUpdate(Encrypted)] + Advances(7), [CallUpdate(AuthJson), Land(true), Advance, Land(true)] + Advances(2);
    assert Hasty() == first + second;
    RunConcat(Idle(QUIET), first, second);
    MoveUpToSelection();
    HastyOvertakes(RunAll(Idle(QUIET), first));
  }

  lemma HastyThenRetry(y: System)
    requires Overtaken(RunAll(y, Hasty()))
    ensures Initialize(RunAll(y, Hasty()).w).started && !Serves(RunAll(y, Hasty()).w, KEYS)
    ensures Emptied(RunAll(y, Hasty() + Retry()))
  {
    RetryEmpties(RunAll(y, Hasty()));
    RunConcat(y, Hasty(), Retry());
  }

  lemma {:induction false} OnlyAdvances(n: nat)
    ensures forall e <- Advances(n) :: e.Advance?
  {
    if n > 0 { OnlyAdvances(n - 1); }
  }

  lemma HastyChangesNothing()
    ensures forall e <- Hasty() + Retry() :: !e.FinishChange?
  {
    OnlyAdvances(7);
    OnlyAdvances(5);
    OnlyAdvances(2);
    assert forall e <- Hasty() :: !e.FinishChange?;
    assert forall e <- Retry() :: !e.FinishChange?;
  }

  /** With nothing refused, one hasty update hides everything from the next start, which comes up on an empty store;
      and trying the move once more then empties the store that has it all. */
  lemma HastyUpdateLosesEverything(w: World)
    requires w == QUIET
    ensures Durable(w, KEYS) && OwedAfter(Idle(w), KEYS, Hasty() + Retry()) == KEYS != EMPTY
    ensures var y := RunAll(Idle(w), Hasty()); Overtaken(y) && Initialize(y.w).started && !Serves(y.w, KEYS)
    ensures Emptied(RunAll(Idle(w), Hasty() + Retry()))
  {
    HastyRun();
    HastyThenRetry(Idle(w));
    HastyChangesNothing();
    NoChangesOweNothing(Idle(w), KEYS, Hasty() + Retry());
    assert "key" in KEYS.items;
  }

  lemma {:induction false} NoChangesOweNothing(y: System, s: Snapshot, events: seq<Event>)
    requires forall e <- events :: !e.FinishChange?
    ensures OwedAfter(y, s, events) == s
    decreases |events|
  {
    if events != [] {
      NoChangesOweNothing(After(y, events[0]), s, events[1..]);
    }
  }

  /** The same move, but its write of the selection takes effect and is reported as failed; and the retry after it. */
  function Untold(): seq<Event> { [Restart, CallUpdate(Encrypted)] + Advances(7) + ([Land(false)] + Advances(2)) }

  function RetryBack(): seq<Event> { [Restart, CallUpdate(AuthJson)] + Advances(5) }

  /** The move was given up, and the selection names its target. */
  ghost predicate GivenUp(y: System) {
    && y.w.grants == QUIET.grants && y.w.started && y.move.None?
    && y.w.journal.None? && y.w.selection == Some(Encrypted) && y.w.authJson == KEYS && y.w.encrypted == EMPTY
  }

  lemma UntoldIsGivenUp(y: System)
    requires Requested(y)
    ensures GivenUp(RunAll(y, [Land(false)] + Advances(2)))
  {
    var y1 := After(y, Land(false));
    assert y1.move == Some(Move(AuthJson, Encrypted, Abandoning));
    RunConcat(y, [Land(false)], Advances(2));
  }

  lemma UntoldRun()
    ensures GivenUp(RunAll(Idle(QUIET), Untold()))
  {
    var first := [Restart, CallUpdate(Encrypted)] + Advances(7);
    RunConcat(Idle(QUIET), first, [Land(false)] + Advances(2));
    MoveUpToSelection();
    UntoldIsGivenUp(RunAll(Idle(QUIET), first));
  }

  lemma RefusedAndClearedBack(y: System)
    requires y.w.grants == QUIET.grants && y.w.started && y.w.kind == Encrypted && y.w.authJson == KEYS && y.w.encrypted == EMPTY && y.w.journal.None?
    requires y.move == Some(Move(Encrypted, AuthJson, Ensuring))
    ensures Emptied(RunAll(y, Advances(5)))
  {
    assert "key" in KEYS.items;
    assert Advances(5) == Advances(3) + Advances(2);
    RunConcat(y, Advances(3), Advances(2));
    var z := RunAll(y, Advances(3));
    assert z.move == Some(Move(Encrypted, AuthJson, Abandoning)) && z.w.authInitialized;
  }

  lemma RetryBackEmpties(y: System)
    requires GivenUp(y)
    ensures Initialize(y.w).started && !Serves(y.w, KEYS)
    ensures Emptied(RunAll(y, RetryBack()))
  {
    assert "key" in KEYS.items;
    RunConcat(y, [Restart, CallUpdate(AuthJson)], Advances(5));
    RefusedAndClearedBack(After(After(y, Restart), CallUpdate(AuthJson)));
  }

  /** So does a write of the selection that takes effect and is reported as failed. */
  lemma UntoldSelectionLosesEverything(w: World)
    requires w == QUIET
    ensures Durable(w, KEYS)
    ensures var y := RunAll(Idle(w), Untold()); GivenUp(y) && Initialize(y.w).started && !Serves(y.w, KEYS)
    ensures Emptied(RunAll(Idle(w), Untold() + RetryBack()))
  {
    UntoldRun();
    RetryBackEmpties(RunAll(Idle(w), Untold()));
    RunConcat(Idle(w), Untold(), RetryBack());
    assert "key" in KEYS.items;
  }

  // ----- what a late change does -----

  const NEW := Snapshot(map["key" := Credential("new", true, true)])

  /** A change of the key begins before the move and is written after the move has taken its snapshot. */
  function Early(): seq<Event> { [Restart, BeginChange((s: Snapshot) => NEW), CallUpdate(Encrypted)] + Advances(4) }

  function Late(): seq<Event> { Early() + ([FinishChange(0)] + (Advances(3) + ([Land(true)] + Advances(3)))) }

  lemma {:induction false} OwedConcat(y: System, s: Snapshot, a: seq<Event>, b: seq<Event>)
    ensures OwedAfter(y, s, a + b) == OwedAfter(RunAll(y, a), OwedAfter(y, s, a), b)
    decreases |a|
  {
    if a == [] {
      assert a + b == b;
    } else {
      assert (a + b)[1..] == a[1..] + b;
      OwedConcat(After(y, a[0]), Owed(y, s, a[0]), a[1..], b);
    }
  }

  /** The change is under way, and the move has its snapshot. */
  ghost predicate UnderWay(y: System) {
    && Quiet(y.w) && y.w.authJson == KEYS && y.w.encrypted == EMPTY && y.asks == []
    && y.move == Some(Move(AuthJson, Encrypted, Journalling(KEYS)))
    && |y.begun| == 1 && y.begun[0].kind == AuthJson && y.begun[0].change(KEYS) == NEW
  }

  lemma EarlyRun()
    ensures UnderWay(RunAll(Idle(QUIET), Early()))
  {
    var first := [Restart, BeginChange((s: Snapshot) => NEW), CallUpdate(Encrypted)];
    RunConcat(Idle(QUIET), first, Advances(4));
    var y0 := After(After(After(Idle(QUIET), Restart), first[1]), first[2]);
    assert first[1..][1..] == [first[2]] && first[1..][1..][1..] == [];
    assert RunAll(Idle(QUIET), first) == y0;
    FourSteps(y0);
  }

  lemma LateTurns(y: System)
    requires UnderWay(y)
    ensures var z := RunAll(y, [FinishChange(0)] + (Advances(3) + ([Land(true)] + Advances(3))));
            z.w.started && z.move.None? && z.w.journal.None? && z.w.kind == Encrypted && z.w.encrypted == KEYS && z.w.authJson == EMPTY
  {
    var y1 := After(y, FinishChange(0));
    RunOne(y, FinishChange(0), Advances(3) + ([Land(true)] + Advances(3)));
    RunConcat(y1, Advances(3), [Land(true)] + Advances(3));
    ThreeSteps(y1);
    var y2 := RunAll(y1, Advances(3));
    assert y2.asks == [Ask(Encrypted, true, false)];
    RunOne(y2, Land(true), Advances(3));
    SelectedEnds(After(y2, Land(true)));
  }

  lemma SelectedEnds(y: System)
    requires y.w.grants == QUIET.grants && y.w.started && y.w.authInitialized && y.w.encrypted == KEYS
    requires y.move == Some(Move(AuthJson, Encrypted, Selected(KEYS)))
    ensures var z := RunAll(y, Advances(3));
            z.w.started && z.move.None? && z.w.journal.None? && z.w.kind == Encrypted && z.w.encrypted == KEYS && z.w.authJson == EMPTY
  {
  }

  lemma OwesTheChange(y: System)
    requires UnderWay(y)
    ensures OwedAfter(y, KEYS, [FinishChange(0)] + (Advances(3) + ([Land(true)] + Advances(3)))) == NEW
  {
    var rest := Advances(3) + ([Land(true)] + Advances(3));
    assert ([FinishChange(0)] + rest)[1..] == rest;
    OnlyAdvances(3);
    NoChangesOweNothing(After(y, FinishChange(0)), NEW, rest);
  }

  lemma EarlyOwesNothing(y: System)
    ensures OwedAfter(y, KEYS, Early()) == KEYS
  {
    OnlyAdvances(4);
    NoChangesOweNothing(y, KEYS, Early());
  }

  /** An accepted change that ends after the snapshot is in neither store once the move has succeeded. */
  lemma LateChangeIsLost(w: World)
    requires w == QUIET
    ensures OwedAfter(Idle(w), KEYS, Late()) == NEW
    ensures var z := RunAll(Idle(w), Late());
            z.w.started && z.move.None? && z.w.journal.None? && z.w.kind == Encrypted && z.w.encrypted == KEYS != NEW && z.w.authJson == EMPTY
  {
    var rest := [FinishChange(0)] + (Advances(3) + ([Land(true)] + Advances(3)));
    EarlyRun();
    LateTurns(RunAll(Idle(w), Early()));
    RunConcat(Idle(w), Early(), rest);
    EarlyOwesNothing(Idle(w));
    OwedConcat(Idle(w), KEYS, Early(), rest);
    OwesTheChange(RunAll(Idle(w), Early()));
    assert KEYS.items["key"] != NEW.items["key"];
  }
}
