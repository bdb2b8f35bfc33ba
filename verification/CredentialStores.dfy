/** The journalled move of all provider credentials from one store to the other, and its recovery at startup. */
module CredentialStores {
  import opened Options

  datatype Kind = AuthJson | Encrypted

  datatype Credential = Credential(value: string, enabled: bool, active: bool)

  /** The contents of a store, by credential id. */
  datatype Snapshot = Snapshot(items: map<string, Credential>)

  const EMPTY := Snapshot(map[])

  datatype Phase = Prepared | Committed

  datatype Journal = Journal(phase: Phase, source: Kind, target: Kind)

  /** The two stores, the selection and the journal are durable; the fields from `started` on belong to one
      process.  Effect number `clock` happens if `grants` says so and otherwise fails without a trace.  The
      death of a process is the failure of every effect from some number on until the next start: what a dead
      process would still do to its own fields is forgotten then. */
  datatype World = World(grants: nat -> bool, clock: nat, authJson: Snapshot, encrypted: Snapshot, selection: Option<Kind>, journal: Option<Journal>,
                         started: bool, kind: Kind, authInitialized: bool, switching: bool, migrationRequired: bool)

  function Other(k: Kind): Kind { if k.AuthJson? then Encrypted else AuthJson }

  function Contents(w: World, k: Kind): Snapshot { if k.AuthJson? then w.authJson else w.encrypted }

  function Holding(w: World, k: Kind, s: Snapshot): World {
    if k.AuthJson? then w.(authJson := s) else w.(encrypted := s)
  }

  /** Both stores keep a credential active only while it is enabled. */
  function Normal(s: Snapshot): Snapshot {
    Snapshot(map id | id in s.items :: s.items[id].(active := s.items[id].active && s.items[id].enabled))
  }

  // ----- single effects -----

  function Try(w: World): (World, bool) {
    (w.(clock := w.clock + 1), w.grants(w.clock))
  }

  function WriteJournal(w: World, j: Option<Journal>): (World, bool) {
    var (v, ok) := Try(w);
    (if ok then v.(journal := j) else v, ok)
  }

  function WriteSelection(w: World, k: Kind): (World, bool) {
    var (v, ok) := Try(w);
    (if ok then v.(selection := Some(k)) else v, ok)
  }

  function EnsureAuthInitialized(w: World): (World, bool) {
    if w.authInitialized then (w, true)
    else
      var (v, ok) := Try(w);
      (v.(authInitialized := ok), ok)
  }

  /** The file store refuses to be listed or changed before it is initialised; it can be validated and read. */
  predicate Usable(w: World, k: Kind) { k.AuthJson? ==> w.authInitialized }

  function Put(w: World, k: Kind, s: Snapshot): (World, bool) {
    if !Usable(w, k) then (w, false)
    else
      var (v, ok) := Try(w);
      (if ok then Holding(v, k, s) else v, ok)
  }

  function Replace(w: World, k: Kind, s: Snapshot): (World, bool) { Put(w, k, Normal(s)) }

  function Clear(w: World, k: Kind): (World, bool) { Put(w, k, EMPTY) }

  // ----- startup -----

  /** The store a process starts from before it has looked at the journal. */
  function Configured(w: World): Kind {
    if w.selection.Some? then w.selection.value else if w.encrypted != EMPTY then Encrypted else AuthJson
  }

  predicate Decided(w: World, j: Journal) { j.phase.Committed? || w.selection == Some(j.target) }

  function Forward(w: World, j: Journal): (World, bool) {
    var (w1, valid) := Try(w);
    if !valid then (w1, false)
    else
      var (w2, selected) := WriteSelection(w1, j.target);
      if !selected then (w2, false)
      else
        var (w3, cleared) := Clear(w2.(kind := j.target), j.source);
        if !cleared then (w3, false) else WriteJournal(w3, None)
  }

  function Backward(w: World, j: Journal): (World, bool) {
    var (w1, cleared) := Clear(w, j.target);
    if !cleared then (w1, false) else WriteJournal(w1.(kind := j.source), None)
  }

  function Recover(w: World): (World, bool) {
    if w.journal.None? then (w, true)
    else
      var j := w.journal.value;
      var (w1, ready) := if j.target.AuthJson? then EnsureAuthInitialized(w) else (w, true);
      if !ready then (w1, false)
      else if Decided(w1, j) then Forward(w1, j)
      else Backward(w1, j)
  }

  function Boot(w: World): World {
    w.(started := false, kind := Configured(w), authInitialized := false, switching := false,
       migrationRequired := w.selection.None? && w.encrypted != EMPTY)
  }

  /** A process starts; it is up only if every step succeeded. */
  function Initialize(w: World): World {
    var w0 := Boot(w);
    var (w1, ready) := if w0.kind.AuthJson? then EnsureAuthInitialized(w0) else (w0, true);
    if !ready then w1
    else
      var (w2, recovered) := Recover(w1);
      if !recovered then w2
      else
        var (w3, valid) := Try(w2);
        w3.(started := valid)
  }

  // ----- moving to the other store -----

  datatype Outcome = Unchanged | Moved(count: nat) | Busy | Occupied | Failed

  /** The checks before anything is written. */
  function Check(w: World, target: Kind): (World, Option<Outcome>) {
    var (w1, ready) := if target.AuthJson? then EnsureAuthInitialized(w) else (w, true);
    if !ready then (w1, Some(Failed))
    else
      var (w2, sourceValid) := Try(w1);
      if !sourceValid then (w2, Some(Failed))
      else
        var (w3, targetValid) := Try(w2);
        if !targetValid || !Usable(w3, target) then (w3, Some(Failed))
        else if Contents(w3, target) != EMPTY then (w3, Some(Occupied))
        else (w3, None)
  }

  /** Journal, copy, read back and compare, select. */
  function Copy(w: World, target: Kind): (World, bool) {
    var (w1, exported) := Try(w);
    if !exported then (w1, false)
    else
      var snapshot := Contents(w1, w1.kind);
      var (w2, journalled) := WriteJournal(w1, Some(Journal(Prepared, w1.kind, target)));
      if !journalled then (w2, false) else Transcribe(w2, target, snapshot)
  }

  function Transcribe(w: World, target: Kind, snapshot: Snapshot): (World, bool) {
    var (w1, replaced) := Replace(w, target, snapshot);
    if !replaced then (w1, false)
    else
      var (w2, readBack) := Try(w1);
      if !readBack || Contents(w2, target) != snapshot then (w2, false) else WriteSelection(w2, target)
  }

  /** What a failure before the selection leads to; a failure here leaves the journal for the next start. */
  function Abandon(w: World, target: Kind): World {
    var (w1, cleared) := Clear(w, target);
    if cleared then WriteJournal(w1, None).0 else w1
  }

  /** Once selected, the target is current: the move is only ever completed. */
  function Complete(w: World, target: Kind): (World, bool) {
    var source := w.kind;
    var (w1, committed) := WriteJournal(w.(kind := target, migrationRequired := false), Some(Journal(Committed, source, target)));
    if !committed then (w1, false)
    else
      var (w2, cleared) := Clear(w1, source);
      if !cleared then (w2, false) else WriteJournal(w2, None)
  }

  function Switch(w: World, target: Kind): (World, Outcome) {
    var (w1, refusal) := Check(w, target);
    if refusal.Some? then (Abandon(w1, target), refusal.value)
    else
      var (w2, copied) := Copy(w1, target);
      if !copied then (Abandon(w2, target), Failed)
      else
        var (w3, completed) := Complete(w2, target);
        (w3, if completed then Moved(|Contents(w3, target).items|) else Failed)
  }

  function UpdateStore(w: World, target: Kind): (World, Outcome) {
    if target == w.kind then
      var (v, ok) := WriteSelection(w.(migrationRequired := false), target);
      (v, if ok then Unchanged else Failed)
    else if w.switching then (w, Busy)
    else
      var (v, outcome) := Switch(w.(switching := true), target);
      (v.(switching := false), outcome)
  }

  /** Any change of the credentials, made through the current store; refused during a move. */
  function Mutate(w: World, change: Snapshot -> Snapshot): (World, bool) {
    if w.switching then (w, false) else Put(w, w.kind, change(Contents(w, w.kind)))
  }
}
