/** The manager itself: its fields change step by step, and each operation is the transition of `CredentialStores`. */
module CredentialStoreManager {
  import opened Options
  import opened CredentialStores
  import CredentialSafety

  class ProviderCredentialStoreManager {
    const grants: nat -> bool
    var clock: nat
    var authJson: Snapshot
    var encrypted: Snapshot
    var selection: Option<Kind>
    var journal: Option<Journal>
    var started: bool
    var currentKind: Kind
    var authInitialized: bool
    var switching: bool
    var migrationRequired: bool

    ghost function State(): World
      reads this
    {
      World(grants, clock, authJson, encrypted, selection, journal, started, currentKind, authInitialized, switching, migrationRequired)
    }

    constructor (grants: nat -> bool, authJson: Snapshot, encrypted: Snapshot, selection: Option<Kind>, journal: Option<Journal>)
      ensures State() == World(grants, 0, authJson, encrypted, selection, journal, false, AuthJson, false, false, false)
    {
      this.grants := grants;
      clock := 0;
      this.authJson, this.encrypted, this.selection, this.journal := authJson, encrypted, selection, journal;
      started, currentKind, authInitialized, switching, migrationRequired := false, AuthJson, false, false, false;
    }

    // ----- single effects -----

    method Attempt() returns (ok: bool)
      modifies this`clock
      ensures (State(), ok) == Try(old(State()))
    {
      ok := grants(clock);
      clock := clock + 1;
    }

    method SetJournal(j: Option<Journal>) returns (ok: bool)
      modifies this`clock, this`journal
      ensures (State(), ok) == WriteJournal(old(State()), j)
    {
      ok := Attempt();
      if ok { journal := j; }
    }

    method Select(k: Kind) returns (ok: bool)
      modifies this`clock, this`selection
      ensures (State(), ok) == WriteSelection(old(State()), k)
    {
      ok := Attempt();
      if ok { selection := Some(k); }
    }

    method EnsureAuth() returns (ok: bool)
      modifies this`clock, this`authInitialized
      ensures (State(), ok) == EnsureAuthInitialized(old(State()))
    {
      if authInitialized { return true; }
      ok := Attempt();
      authInitialized := ok;
    }

    method ReplaceAll(k: Kind, s: Snapshot) returns (ok: bool)
      modifies this`clock, this`authJson, this`encrypted
      ensures (State(), ok) == Put(old(State()), k, s)
    {
      if k.AuthJson? && !authInitialized { return false; }
      ok := Attempt();
      if ok {
        if k.AuthJson? { authJson := s; } else { encrypted := s; }
      }
    }

    method Read(k: Kind) returns (s: Snapshot)
      ensures s == Contents(State(), k)
    {
      s := if k.AuthJson? then authJson else encrypted;
    }

    // ----- startup -----

    method GoForward(j: Journal) returns (ok: bool)
      modifies this
      ensures (State(), ok) == Forward(old(State()), j)
    {
      ok := Attempt();
      if !ok { return; }
      ok := Select(j.target);
      if !ok { return; }
      currentKind := j.target;
      ok := ReplaceAll(j.source, EMPTY);
      if !ok { return; }
      ok := SetJournal(None);
    }

    method GoBackward(j: Journal) returns (ok: bool)
      modifies this
      ensures (State(), ok) == Backward(old(State()), j)
    {
      ok := ReplaceAll(j.target, EMPTY);
      if !ok { return; }
      currentKind := j.source;
      ok := SetJournal(None);
    }

    method RecoverJournal() returns (ok: bool)
      modifies this
      ensures (State(), ok) == Recover(old(State()))
    {
      if journal.None? { return true; }
      var j := journal.value;
      if j.target.AuthJson? {
        ok := EnsureAuth();
        if !ok { return; }
      }
      if j.phase.Committed? || selection == Some(j.target) {
        ok := GoForward(j);
      } else {
        ok := GoBackward(j);
      }
    }

    method BeginProcess()
      modifies this
      ensures State() == Boot(old(State()))
    {
      migrationRequired := selection.None? && encrypted != EMPTY;
      currentKind := if selection.Some? then selection.value else if encrypted != EMPTY then Encrypted else AuthJson;
      started, authInitialized, switching := false, false, false;
    }

    method InitializeStores()
      modifies this
      ensures State() == Initialize(old(State()))
      ensures forall s :: CredentialSafety.Durable(old(State()), s) ==> CredentialSafety.Safe(State(), s)
    {
      ghost var before := State();
      forall s | CredentialSafety.Durable(before, s) ensures CredentialSafety.Safe(Initialize(before), s) {
        CredentialSafety.InitializeIsSafe(before, s);
      }
      BeginProcess();
      var ok := true;
      if currentKind.AuthJson? {
        ok := EnsureAuth();
        if !ok { return; }
      }
      ok := RecoverJournal();
      if !ok { return; }
      started := Attempt();
    }

    // ----- moving to the other store -----

    method CheckTarget(target: Kind) returns (refusal: Option<Outcome>)
      modifies this
      ensures (State(), refusal) == Check(old(State()), target)
    {
      var ok := true;
      if target.AuthJson? {
        ok := EnsureAuth();
        if !ok { return Some(Failed); }
      }
      ok := Attempt();
      if !ok { return Some(Failed); }
      ok := Attempt();
      if !ok { return Some(Failed); }
      if target.AuthJson? && !authInitialized { return Some(Failed); }
      var there := Read(target);
      return if there != EMPTY then Some(Occupied) else None;
    }

    method CopyTo(target: Kind) returns (ok: bool)
      modifies this
      ensures (State(), ok) == Copy(old(State()), target)
    {
      ok := Attempt();
      if !ok { return; }
      var snapshot := Read(currentKind);
      ok := SetJournal(Some(Journal(Prepared, currentKind, target)));
      if !ok { return; }
      ok := ReplaceAll(target, Normal(snapshot));
      if !ok { return; }
      ok := Attempt();
      var written := Read(target);
      if !ok || written != snapshot { return false; }
      ok := Select(target);
    }

    method AbandonMove(target: Kind)
      modifies this
      ensures State() == Abandon(old(State()), target)
    {
      var cleared := ReplaceAll(target, EMPTY);
      if cleared { var dropped := SetJournal(None); }
    }

    method CompleteMove(target: Kind) returns (ok: bool)
      modifies this
      ensures (State(), ok) == Complete(old(State()), target)
    {
      var source := currentKind;
      currentKind, migrationRequired := target, false;
      ok := SetJournal(Some(Journal(Committed, source, target)));
      if !ok { return; }
      ok := ReplaceAll(source, EMPTY);
      if !ok { return; }
      ok := SetJournal(None);
    }

    method SwitchTo(target: Kind) returns (outcome: Outcome)
      modifies this
      ensures (State(), outcome) == Switch(old(State()), target)
    {
      var refusal := CheckTarget(target);
      if refusal.Some? {
        AbandonMove(target);
        return refusal.value;
      }
      var copied := CopyTo(target);
      if !copied {
        AbandonMove(target);
        return Failed;
      }
      var completed := CompleteMove(target);
      var moved := Read(target);
      return if completed then Moved(|moved.items|) else Failed;
    }

    method Update(target: Kind) returns (outcome: Outcome)
      modifies this
      ensures (State(), outcome) == UpdateStore(old(State()), target)
      ensures old(started) ==> forall s :: CredentialSafety.Safe(old(State()), s) ==> CredentialSafety.Safe(State(), s)
    {
      ghost var before := State();
      forall s | started && CredentialSafety.Safe(before, s) ensures CredentialSafety.Safe(UpdateStore(before, target).0, s) {
        CredentialSafety.UpdateIsSafe(before, target, s);
      }
      if target == currentKind {
        migrationRequired := false;
        var ok := Select(target);
        return if ok then Unchanged else Failed;
      }
      if switching { return Busy; }
      switching := true;
      outcome := SwitchTo(target);
      switching := false;
    }

    method GuardMutation(change: Snapshot -> Snapshot) returns (ok: bool)
      modifies this
      ensures (State(), ok) == Mutate(old(State()), change)
      ensures old(started) ==> forall s :: CredentialSafety.Safe(old(State()), s) ==> CredentialSafety.Safe(State(), if ok then change(s) else s)
    {
      ghost var before := State();
      forall s | started && CredentialSafety.Safe(before, s)
        ensures var (v, done) := Mutate(before, change); CredentialSafety.Safe(v, if done then change(s) else s)
      {
        CredentialSafety.MutateIsSafe(before, s, change);
      }
      if switching { return false; }
      var now := Read(currentKind);
      ok := ReplaceAll(currentKind, change(now));
    }
  }
}
