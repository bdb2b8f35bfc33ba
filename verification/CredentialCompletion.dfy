/** When nothing fails any more: exactly when startup, and a move, come to an end, and in what state. */
module CredentialCompletion {
  import opened Options
  import opened CredentialStores
  import opened CredentialSafety

  ghost predicate Calm(w: World) { forall i :: w.clock <= i ==> w.grants(i) }

  /** The whole of the credentials is in the current store, the other is empty and no journal is left. */
  ghost predicate Tidy(w: World, s: Snapshot) {
    w.journal.None? && Contents(w, w.kind) == s && Contents(w, Other(w.kind)) == EMPTY
  }

  /** A decided move out of the file store, which startup does not initialise: clearing it is refused. */
  predicate Stuck(w: World) {
    w.journal.Some? && Decided(w, w.journal.value) && w.journal.value.source.AuthJson?
  }

  /** An undecided move out of the file store, when the choice of store was left to startup and the copy made
      it choose the encrypted store. */
  predicate Crippled(w: World) {
    w.journal.Some? && !Decided(w, w.journal.value) && w.journal.value.source.AuthJson? && w.selection.None? && w.encrypted != EMPTY
  }

  // ----- startup -----

  lemma ForwardWhenCalm(w: World, j: Journal)
    requires Calm(w)
    ensures var (v, ok) := Forward(w, j); (ok <==> Usable(w, j.source)) && Calm(v)
  {
  }

  lemma BackwardWhenCalm(w: World, j: Journal)
    requires Calm(w)
    ensures var (v, ok) := Backward(w, j); (ok <==> Usable(w, j.target)) && Calm(v)
  {
  }

  lemma EnsureWhenCalm(w: World)
    requires Calm(w)
    ensures var (v, ok) := EnsureAuthInitialized(w); ok && Calm(v) && Like(w.(authInitialized := true), v)
  {
  }

  lemma RecoverWhenCalm(w: World, s: Snapshot)
    requires Calm(w) && Durable(w, s) && !w.started && w.kind == Configured(w) && (w.kind.AuthJson? <==> w.authInitialized)
    ensures var (v, ok) := Recover(w);
            && Calm(v)
            && (ok <==> !Stuck(w))
            && (ok ==> Tidy(v, s) && (v.kind.AuthJson? && !v.authInitialized <==> Crippled(w)))
  {
    if w.journal.Some? {
      var j := w.journal.value;
      EnsureWhenCalm(w);
      var w1 := if j.target.AuthJson? then EnsureAuthInitialized(w).0 else w;
      if Decided(w1, j) {
        ForwardWhenCalm(w1, j);
        ForwardLeads(w1, j);
        ForwardIsSafe(w1, s, Forward(w1, j).0, Forward(w1, j).1);
      } else {
        BackwardWhenCalm(w1, j);
        BackwardLeads(w1, j);
        BackwardIsSafe(w1, s, Backward(w1, j).0, Backward(w1, j).1);
      }
    }
  }

  /** Startup succeeds unless a decided move left the file store to be cleared, and then everything is in the
      store it works on; that store can be used unless it is the file store, left uninitialised by a move that
      was taken back.  Both conditions can be read off the disk beforehand. */
  lemma StartupSettles(w: World, s: Snapshot)
    requires Calm(w) && Durable(w, s)
    ensures var v := Initialize(w);
            && (v.started <==> !Stuck(w))
            && (v.started ==> Tidy(v, s) && (Usable(v, v.kind) <==> !Crippled(w)))
  {
    var w0 := Boot(w);
    EnsureWhenCalm(w0);
    var w1 := if w0.kind.AuthJson? then EnsureAuthInitialized(w0).0 else w0;
    RecoverWhenCalm(w1, s);
  }

  /** How many effects a start takes: it initialises the file store if that is the store in use or the target of a move,
      completes a decided move in four or takes an undecided one back in two, and validates the store it ends on. */
  function Effects(w: World): nat {
    match w.journal
    case None => if Configured(w) == AuthJson then 2 else 1
    case Some(j) => (if Configured(w) == AuthJson || j.target == AuthJson then 1 else 0) + (if Decided(w, j) then 4 else 2) + 1
  }

  ghost predicate Happen(w: World, n: nat) { forall i: nat :: w.clock <= i < w.clock + n ==> w.grants(i) }

  lemma FirstHappens(w: World, n: nat, v: World)
    requires v.grants == w.grants && v.clock == w.clock + 1
    ensures Happen(w, n + 1) <==> w.grants(w.clock) && Happen(v, n)
  {
    if w.grants(w.clock) && Happen(v, n) {
      forall i: nat | w.clock <= i < w.clock + n + 1 ensures w.grants(i) { assert i == w.clock || v.clock <= i < v.clock + n; }
    }
    if Happen(w, n + 1) {
      assert w.clock <= w.clock < w.clock + n + 1;
      forall i: nat | v.clock <= i < v.clock + n ensures v.grants(i) { assert w.clock <= i < w.clock + n + 1; }
    }
  }

  lemma ForwardExactlyWhen(w: World, j: Journal)
    requires Usable(w, j.source)
    ensures var (v, ok) := Forward(w, j); (ok <==> Happen(w, 4)) && (ok ==> v.clock == w.clock + 4) && v.grants == w.grants
  {
    var w1, w2, w3, w4 := w.(clock := w.clock + 1), w.(clock := w.clock + 2), w.(clock := w.clock + 3), w.(clock := w.clock + 4);
    FirstHappens(w, 3, w1);
    FirstHappens(w1, 2, w2);
    FirstHappens(w2, 1, w3);
    FirstHappens(w3, 0, w4);
  }

  lemma BackwardExactlyWhen(w: World, j: Journal)
    requires Usable(w, j.target)
    ensures var (v, ok) := Backward(w, j); (ok <==> Happen(w, 2)) && (ok ==> v.clock == w.clock + 2) && v.grants == w.grants
  {
    var w1, w2 := w.(clock := w.clock + 1), w.(clock := w.clock + 2);
    FirstHappens(w, 1, w1);
    FirstHappens(w1, 0, w2);
  }

  lemma RecoverExactlyWhen(w: World, s: Snapshot)
    requires Durable(w, s) && w.kind == Configured(w) && (w.kind.AuthJson? <==> w.authInitialized) && w.journal.Some?
    ensures var j := w.journal.value;
            var n := (if j.target.AuthJson? && !w.authInitialized then 1 else 0) + (if Decided(w, j) then 4 else 2);
            var (v, ok) := Recover(w);
            (ok <==> !Stuck(w) && Happen(w, n)) && (ok ==> v.clock == w.clock + n) && v.grants == w.grants && v.started == w.started
  {
    hide Forward, Backward;
    var j := w.journal.value;
    var w1 := if j.target.AuthJson? then EnsureAuthInitialized(w).0 else w;
    if j.target.AuthJson? && !w.authInitialized { FirstHappens(w, if Decided(w, j) then 4 else 2, w1); }
    if Stuck(w) {
      StuckForward(w1, j);
      ForwardLeads(w1, j);
    } else if Decided(w1, j) {
      ForwardExactlyWhen(w1, j);
      ForwardLeads(w1, j);
    } else {
      if Usable(w1, j.target) { BackwardExactlyWhen(w1, j); }
      BackwardLeads(w1, j);
    }
  }

  /** Whatever fails, a start is up exactly if every effect it takes happens and no move is stuck. */
  lemma StartedExactlyWhen(w: World, s: Snapshot)
    requires Durable(w, s)
    ensures Initialize(w).started <==> !Stuck(w) && Happen(w, Effects(w))
  {
    hide Recover;
    var w0 := Boot(w);
    var w1 := if w0.kind.AuthJson? then EnsureAuthInitialized(w0).0 else w0;
    if w0.kind.AuthJson? { FirstHappens(w0, Effects(w) - 1, w1); }
    if w0.kind.AuthJson? ==> w1.authInitialized {
      if w.journal.Some? { RecoverExactlyWhen(w1, s); } else { NothingToRecover(w1); }
      var n := Effects(w) - (if w0.kind.AuthJson? then 1 else 0) - 1;
      var (w2, recovered) := Recover(w1);
      if recovered {
        HappenInTurn(w1, n, 1, w2);
        FirstHappens(w2, 0, w2.(clock := w2.clock + 1));
      } else if Happen(w1, n + 1) {
        HappenInTurn(w1, n, 1, w1.(clock := w1.clock + n));
      }
    }
  }

  lemma NothingToRecover(w: World)
    requires w.journal.None?
    ensures Recover(w) == (w, true)
  {
  }

  lemma HappenInTurn(w: World, m: nat, n: nat, v: World)
    requires v.grants == w.grants && v.clock == w.clock + m
    ensures Happen(w, m + n) <==> Happen(w, m) && Happen(v, n)
  {
    if Happen(w, m) && Happen(v, n) {
      forall i: nat | w.clock <= i < w.clock + m + n ensures w.grants(i) { assert i < w.clock + m || v.clock <= i < v.clock + n; }
    }
    if Happen(w, m + n) {
      forall i: nat | v.clock <= i < v.clock + n ensures v.grants(i) { assert w.clock <= i < w.clock + m + n; }
    }
  }

  // ----- moves into the file store always come to an end -----

  /** Every journal is of a move into the file store. */
  ghost predicate IntoFile(w: World) { w.journal.Some? ==> w.journal.value.target.AuthJson? && w.journal.value.source.Encrypted? }

  lemma ForwardKeepsDirection(w: World, j: Journal, v: World, ok: bool)
    requires IntoFile(w) && AfterForward(w, j, v, ok)
    ensures IntoFile(v)
  {
  }

  lemma BackwardKeepsDirection(w: World, j: Journal, v: World, ok: bool)
    requires IntoFile(w) && AfterBackward(w, j, v, ok)
    ensures IntoFile(v)
  {
  }

  lemma StartKeepsDirection(w: World)
    requires IntoFile(w)
    ensures IntoFile(Initialize(w))
  {
    var w0 := Boot(w);
    var w1 := if w0.kind.AuthJson? then EnsureAuthInitialized(w0).0 else w0;
    if w1.journal.Some? {
      var j := w1.journal.value;
      var w2 := if j.target.AuthJson? then EnsureAuthInitialized(w1).0 else w1;
      ForwardLeads(w2, j);
      ForwardKeepsDirection(w2, j, Forward(w2, j).0, Forward(w2, j).1);
      BackwardLeads(w2, j);
      BackwardKeepsDirection(w2, j, Backward(w2, j).0, Backward(w2, j).1);
    }
  }

  lemma SwitchKeepsDirection(w: World)
    requires IntoFile(w) && w.kind.Encrypted?
    ensures IntoFile(Switch(w, AuthJson).0)
  {
    CheckLeads(w, AuthJson);
    var (w1, refusal) := Check(w, AuthJson);
    AbandonLeads(w1, AuthJson);
    if refusal.None? {
      CopyLeads(w1, AuthJson);
      var (w2, copied) := Copy(w1, AuthJson);
      CopiedKeepsDirection(w1, w2, copied);
      AbandonLeads(w2, AuthJson);
      CompleteLeads(w2, AuthJson);
    }
  }

  lemma CopiedKeepsDirection(w: World, v: World, ok: bool)
    requires IntoFile(w) && w.kind.Encrypted? && AfterCopy(w, AuthJson, v, ok)
    ensures IntoFile(v) && v.kind.Encrypted?
  {
  }

  function Starts(w: World, n: nat): World { if n == 0 then w else Initialize(Starts(w, n - 1)) }

  lemma {:induction false} StartsAreSafe(w: World, s: Snapshot, n: nat)
    requires Safe(w, s) && IntoFile(w)
    ensures Safe(Starts(w, n), s) && IntoFile(Starts(w, n))
  {
    if n > 0 {
      StartsAreSafe(w, s, n - 1);
      InitializeIsSafe(Starts(w, n - 1), s);
      StartKeepsDirection(Starts(w, n - 1));
    }
  }

  /** A move from the encrypted to the file store may die anywhere, and so may any number of starts after it:
      the first start that is not disturbed ends the move, one way or the other, with everything in the one
      usable store. */
  lemma MoveIntoFileAlwaysSettles(w: World, s: Snapshot, n: nat)
    requires Safe(w, s) && w.started && !w.switching && w.kind.Encrypted? && w.journal.None?
    requires Calm(Starts(UpdateStore(w, AuthJson).0, n))
    ensures var v := Initialize(Starts(UpdateStore(w, AuthJson).0, n));
            v.started && Tidy(v, s) && Usable(v, v.kind)
  {
    var w1 := UpdateStore(w, AuthJson).0;
    UpdateIsSafe(w, AuthJson, s);
    SwitchKeepsDirection(w.(switching := true));
    StartsAreSafe(w1, s, n);
    StartupSettles(Starts(w1, n), s);
  }

  // ----- a move -----

  lemma CheckWhenCalm(w: World, target: Kind)
    requires Calm(w) && target != w.kind
    ensures var (v, refusal) := Check(w, target);
            && Calm(v)
            && (refusal.None? <==> Contents(w, target) == EMPTY)
            && (refusal.Some? ==> refusal == Some(Occupied))
            && Usable(v, target) && (target.Encrypted? ==> v.authInitialized == w.authInitialized)
  {
  }

  lemma AbandonWhenCalm(w: World, target: Kind)
    requires Calm(w) && Usable(w, target)
    ensures var v := Abandon(w, target); Like(Holding(w, target, EMPTY).(journal := None), v)
  {
  }

  lemma CheckExactlyWhen(w: World, target: Kind)
    requires target != w.kind
    ensures var (v, refusal) := Check(w, target);
            var n := if target.AuthJson? && !w.authInitialized then 3 else 2;
            && (refusal.None? <==> Contents(w, target) == EMPTY && Happen(w, n))
            && (refusal == Some(Occupied) <==> Contents(w, target) != EMPTY && Happen(w, n)) && (refusal.Some? ==> refusal.value in {Occupied, Outcome.Failed})
            && (refusal.None? ==> v.clock == w.clock + n && Usable(v, target) && (target.Encrypted? ==> v.authInitialized == w.authInitialized))
            && v.grants == w.grants
  {
    var w0 := if target.AuthJson? then EnsureAuthInitialized(w).0 else w;
    if target.AuthJson? && !w.authInitialized { FirstHappens(w, 2, w0); }
    var w1, w2 := w0.(clock := w0.clock + 1), w0.(clock := w0.clock + 2);
    FirstHappens(w0, 1, w1);
    FirstHappens(w1, 0, w2);
  }

  lemma TranscribeExactlyWhen(w: World, target: Kind, snapshot: Snapshot)
    requires Usable(w, target)
    ensures var (v, ok) := Transcribe(w, target, snapshot);
            (ok <==> Normal(snapshot) == snapshot && Happen(w, 3)) && (ok ==> v.clock == w.clock + 3) && v.grants == w.grants && v.authInitialized == w.authInitialized
  {
    var w1, w2, w3 := w.(clock := w.clock + 1), w.(clock := w.clock + 2), w.(clock := w.clock + 3);
    FirstHappens(w, 2, w1);
    FirstHappens(w1, 1, w2);
    FirstHappens(w2, 0, w3);
  }

  lemma CopyExactlyWhen(w: World, target: Kind)
    requires target != w.kind && Usable(w, target)
    ensures var (v, ok) := Copy(w, target);
            var s := Contents(w, w.kind);
            (ok <==> Normal(s) == s && Happen(w, 5)) && (ok ==> v.clock == w.clock + 5) && v.grants == w.grants && v.authInitialized == w.authInitialized
  {
    hide Transcribe;
    var w1 := w.(clock := w.clock + 1);
    var w2 := WriteJournal(w1, Some(Journal(Prepared, w.kind, target))).0;
    FirstHappens(w, 4, w1);
    FirstHappens(w1, 3, w2);
    TranscribeExactlyWhen(w2, target, Contents(w, w.kind));
  }

  lemma CompleteExactlyWhen(w: World, target: Kind)
    ensures var (v, ok) := Complete(w, target); ok <==> Usable(w, w.kind) && Happen(w, 3)
  {
    var w1, w2, w3 := w.(clock := w.clock + 1), w.(clock := w.clock + 2), w.(clock := w.clock + 3);
    FirstHappens(w, 2, w1);
    FirstHappens(w1, 1, w2);
    FirstHappens(w2, 0, w3);
  }

  /** Whatever fails, a move succeeds exactly when the other store is empty, no disabled credential is marked active, the
      source, if it is the file store, is initialised, and each of its ten effects happens, after the initialisation of the
      file store if that is the target and still needs one; everything is then in the selected target. */
  lemma MoveSucceedsExactlyWhen(w: World, target: Kind)
    requires !w.switching && target != w.kind
    ensures var (v, outcome) := UpdateStore(w, target);
            var s := Contents(w, w.kind);
            var n := if target.AuthJson? && !w.authInitialized then 11 else 10;
            && (outcome.Moved? <==> Contents(w, target) == EMPTY && Normal(s) == s && (w.kind.AuthJson? ==> w.authInitialized) && Happen(w, n))
            && (outcome.Moved? ==> Tidy(v, s) && v.kind == target && v.selection == Some(target) && outcome.count == |s.items|)
  {
    hide Check, Copy, Complete;
    var w0 := w.(switching := true);
    var n := if target.AuthJson? && !w.authInitialized then 3 else 2;
    CheckExactlyWhen(w0, target);
    CheckLeads(w0, target);
    var (w1, refusal) := Check(w0, target);
    HappenInTurn(w0, n, 8, w0.(clock := w0.clock + n));
    if refusal.None? {
      CopyExactlyWhen(w1, target);
      CopyLeads(w1, target);
      var (w2, copied) := Copy(w1, target);
      HappenInTurn(w1, 5, 3, w1.(clock := w1.clock + 5));
      if copied {
        CompleteExactlyWhen(w2, target);
        CompleteLeads(w2, target);
      }
    }
  }

  /** A move refused because its target is not empty does not leave the target alone: it empties it, and drops
      any journal.  So a refusal keeps the target only if there was nothing to keep. */
  lemma RefusalEmptiesTheTarget(w: World, target: Kind)
    requires Calm(w) && !w.switching && target != w.kind && Contents(w, target) != EMPTY
    ensures var (v, outcome) := UpdateStore(w, target);
            outcome == Occupied && Contents(v, target) == EMPTY && v.journal.None? && Contents(v, w.kind) == Contents(w, w.kind)
  {
    var w0 := w.(switching := true);
    CheckWhenCalm(w0, target);
    CheckLeads(w0, target);
    AbandonWhenCalm(Check(w0, target).0, target);
  }

  // ----- the two exceptions do occur -----

  /** A move out of the file store that dies before clearing it: no later start succeeds. */
  lemma {:induction false} StuckForEver(w: World, s: Snapshot, n: nat)
    requires Durable(w, s) && Stuck(w) && w.selection == Some(Encrypted)
    ensures var v := Starts(w, n); Durable(v, s) && Stuck(v) && v.selection == Some(Encrypted) && (n > 0 ==> !v.started)
  {
    if n > 0 {
      StuckForEver(w, s, n - 1);
      StuckOnce(Starts(w, n - 1), s);
    }
  }

  lemma StuckOnce(w: World, s: Snapshot)
    requires Durable(w, s) && Stuck(w) && w.selection == Some(Encrypted)
    ensures var v := Initialize(w); Durable(v, s) && Stuck(v) && v.selection == Some(Encrypted) && !v.started
  {
    InitializeIsSafe(w, s);
    var w0 := Boot(w);
    ForwardLeads(w0, w0.journal.value);
    StuckForward(w0, w0.journal.value);
  }

  lemma StuckForward(w: World, j: Journal)
    requires j.source.AuthJson? && !w.authInitialized
    ensures !Forward(w, j).1 && Forward(w, j).0.authJson == w.authJson && Forward(w, j).0.journal == w.journal
  {
  }

  /** Such a death is reachable: the process stops right after the new selection was written. */
  lemma StuckIsReachable(s: Snapshot)
    requires Normal(s) == s
    ensures var w := World(i => i < 7, 0, s, EMPTY, Some(AuthJson), None, true, AuthJson, true, false, false);
            Safe(w, s) && Stuck(UpdateStore(w, Encrypted).0) && UpdateStore(w, Encrypted).0.selection == Some(Encrypted)
  {
  }

  /** And so is the other: the process stops right after the copy, with the choice of store left to startup. */
  lemma CrippledIsReachable(s: Snapshot)
    requires Normal(s) == s && s != EMPTY
    ensures var w := World(i => i < 5, 0, s, EMPTY, None, None, true, AuthJson, true, false, false);
            Safe(w, s) && Crippled(UpdateStore(w, Encrypted).0)
  {
  }

  // ----- the selection -----

  /** Where the file store cannot be initialised, a move into it fails before it has touched anything. */
  lemma RefusedInitialisationChangesNothing(w: World)
    requires !w.switching && w.kind.Encrypted? && !w.authInitialized && !w.grants(w.clock)
    ensures UpdateStore(w, AuthJson) == (w.(clock := w.clock + 1), Failed)
  {
  }

  /** Asking for the store in use only confirms it: it succeeds exactly when the selection can be written, which is then
      this store, and nothing else that is stored or in use changes. */
  lemma ConfirmedExactlyWhen(w: World)
    ensures var (v, outcome) := UpdateStore(w, w.kind);
            && (outcome == Unchanged <==> w.grants(w.clock)) && outcome in {Unchanged, Failed}
            && v.selection == (if outcome == Unchanged then Some(w.kind) else w.selection)
            && v.authJson == w.authJson && v.encrypted == w.encrypted && v.journal == w.journal
            && v.kind == w.kind && v.authInitialized == w.authInitialized && v.switching == w.switching && v.started == w.started
            && !v.migrationRequired && v.grants == w.grants
  {
  }

  /** A confirmed store is the one that the next undisturbed start works on, with everything that was in it, and that
      start has nothing to ask the user. */
  lemma ConfirmedIsUsedAgain(w: World, s: Snapshot)
    requires w.started && Safe(w, s) && w.journal.None? && UpdateStore(w, w.kind).1 == Unchanged && Calm(UpdateStore(w, w.kind).0)
    ensures var v := Initialize(UpdateStore(w, w.kind).0);
            v.started && v.kind == w.kind && Tidy(v, s) && Usable(v, v.kind) && !v.migrationRequired
  {
    UpdateIsSafe(w, w.kind, s);
    var u := UpdateStore(w, w.kind).0;
    StartupSettles(u, s);
    assert u.selection == Some(w.kind) && u.journal.None?;
    assert Boot(u).kind == w.kind && !Boot(u).migrationRequired;
  }

  lemma RecoverAsks(w: World)
    ensures Recover(w).0.migrationRequired == w.migrationRequired
  {
    if w.journal.Some? {
      var j := w.journal.value;
      var w1 := if j.target.AuthJson? then EnsureAuthInitialized(w).0 else w;
      ForwardLeads(w1, j);
      BackwardLeads(w1, j);
      hide Forward, Backward;
    }
  }

  lemma MoveAsks(w: World, target: Kind)
    requires target != w.kind
    ensures var v := Switch(w, target).0; v.migrationRequired <==> w.migrationRequired && v.kind == w.kind
  {
    hide Check, Copy, Complete, Abandon;
    CheckLeads(w, target);
    var (w1, refusal) := Check(w, target);
    AbandonLeads(w1, target);
    if refusal.None? {
      CopyLeads(w1, target);
      var (w2, _) := Copy(w1, target);
      AbandonLeads(w2, target);
      CompleteLeads(w2, target);
    }
  }

  /** A start asks the user to choose exactly when nothing was selected and there are encrypted credentials; a choice
      stops the asking, made by confirming the store in use or by a move that gets as far as the selection. */
  lemma AsksExactlyWhen(w: World, target: Kind)
    ensures Initialize(w).migrationRequired <==> w.selection.None? && w.encrypted != EMPTY
    ensures UpdateStore(w, target).0.migrationRequired <==>
              w.migrationRequired && target != w.kind && UpdateStore(w, target).0.kind == w.kind
  {
    hide Recover, Switch;
    var w0 := Boot(w);
    RecoverAsks(if w0.kind.AuthJson? then EnsureAuthInitialized(w0).0 else w0);
    if target != w.kind { MoveAsks(w.(switching := true), target); }
  }
}
