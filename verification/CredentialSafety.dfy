/** No credential is lost: over every run of starts, moves and changes, with failures and crashes anywhere. */
module CredentialSafety {
  import opened Options
  import opened CredentialStores

  /** Where recovery will take the credentials from. */
  function Holder(w: World): Kind {
    if w.journal.None? then Configured(w)
    else if Decided(w, w.journal.value) then w.journal.value.target
    else w.journal.value.source
  }

  /** The durable state: the holder has everything, and without a journal the other store has nothing. */
  ghost predicate Durable(w: World, s: Snapshot) {
    && Contents(w, Holder(w)) == s
    && (w.journal.None? ==> Contents(w, Other(Holder(w))) == EMPTY)
    && (w.journal.Some? ==>
          var j := w.journal.value; j.source != j.target && (j.phase.Committed? ==> w.selection == Some(j.target)))
  }

  /** A running process works on a store that has everything, and agrees with what recovery would choose. */
  ghost predicate Working(w: World, s: Snapshot) {
    && Contents(w, w.kind) == s
    && (w.selection.Some? ==> w.selection.value == w.kind)
    && (w.journal.None? ==> Contents(w, Other(w.kind)) == EMPTY)
    && (w.journal.Some? ==> w.kind == Holder(w))
  }

  ghost predicate Safe(w: World, s: Snapshot) { Durable(w, s) && (w.started ==> Working(w, s)) }

  // ----- where a stage can leave the world -----

  /** The same but for the clock. */
  ghost predicate Like(w: World, v: World) { v == w.(clock := v.clock) }

  ghost predicate AfterForward(w: World, j: Journal, v: World, ok: bool) {
    var selected := w.(selection := Some(j.target));
    var moved := selected.(kind := j.target);
    var cleared := Holding(moved, j.source, EMPTY);
    if ok then Like(cleared.(journal := None), v) else Like(w, v) || Like(selected, v) || Like(moved, v) || Like(cleared, v)
  }

  lemma ForwardLeads(w: World, j: Journal)
    ensures AfterForward(w, j, Forward(w, j).0, Forward(w, j).1)
  {
  }

  ghost predicate AfterBackward(w: World, j: Journal, v: World, ok: bool) {
    var cleared := Holding(w, j.target, EMPTY);
    var moved := cleared.(kind := j.source);
    if ok then Like(moved.(journal := None), v) else Like(w, v) || Like(moved, v)
  }

  lemma BackwardLeads(w: World, j: Journal)
    ensures AfterBackward(w, j, Backward(w, j).0, Backward(w, j).1)
  {
  }

  ghost predicate AfterCheck(w: World, target: Kind, v: World, refusal: Option<Outcome>) {
    && Like(w.(authInitialized := v.authInitialized), v)
    && (w.authInitialized ==> v.authInitialized)
    && (refusal.None? ==> Usable(v, target) && Contents(v, target) == EMPTY)
  }

  lemma CheckLeads(w: World, target: Kind)
    ensures AfterCheck(w, target, Check(w, target).0, Check(w, target).1)
  {
  }

  ghost predicate AfterCopy(w: World, target: Kind, v: World, ok: bool) {
    var journalled := w.(journal := Some(Journal(Prepared, w.kind, target)));
    var copied := Holding(journalled, target, Normal(Contents(w, w.kind)));
    if ok then Like(copied.(selection := Some(target)), v) && Contents(v, target) == Contents(w, w.kind)
    else Like(w, v) || Like(journalled, v) || Like(copied, v)
  }

  lemma TranscribeLeads(w: World, target: Kind, snapshot: Snapshot)
    ensures var (v, ok) := Transcribe(w, target, snapshot);
            var copied := Holding(w, target, Normal(snapshot));
            if ok then Like(copied.(selection := Some(target)), v) && Contents(v, target) == snapshot
            else Like(w, v) || Like(copied, v)
  {
  }

  lemma CopyLeads(w: World, target: Kind)
    requires target != w.kind
    ensures AfterCopy(w, target, Copy(w, target).0, Copy(w, target).1)
  {
    var (w1, exported) := Try(w);
    var (w2, journalled) := WriteJournal(w1, Some(Journal(Prepared, w1.kind, target)));
    if exported && journalled { TranscribeLeads(w2, target, Contents(w, w.kind)); }
  }

  ghost predicate AfterAbandon(w: World, target: Kind, v: World) {
    var cleared := Holding(w, target, EMPTY);
    Like(w, v) || Like(cleared, v) || Like(cleared.(journal := None), v)
  }

  lemma AbandonLeads(w: World, target: Kind)
    ensures AfterAbandon(w, target, Abandon(w, target))
  {
  }

  ghost predicate AfterComplete(w: World, target: Kind, v: World, ok: bool) {
    var current := w.(kind := target, migrationRequired := false);
    var committed := current.(journal := Some(Journal(Committed, w.kind, target)));
    var cleared := Holding(committed, w.kind, EMPTY);
    if ok then Like(cleared.(journal := None), v) else Like(current, v) || Like(committed, v) || Like(cleared, v)
  }

  lemma CompleteLeads(w: World, target: Kind)
    ensures AfterComplete(w, target, Complete(w, target).0, Complete(w, target).1)
  {
  }

  // ----- starting -----

  lemma ForwardIsSafe(w: World, s: Snapshot, v: World, ok: bool)
    requires Durable(w, s) && w.journal.Some? && Decided(w, w.journal.value) && !w.started
    requires AfterForward(w, w.journal.value, v, ok)
    ensures Durable(v, s) && !v.started && (ok ==> Working(v, s) && v.journal.None?)
  {
  }

  lemma BackwardIsSafe(w: World, s: Snapshot, v: World, ok: bool)
    requires Durable(w, s) && w.journal.Some? && !Decided(w, w.journal.value) && !w.started
    requires AfterBackward(w, w.journal.value, v, ok)
    ensures Durable(v, s) && !v.started && (ok ==> Working(v, s) && v.journal.None?)
  {
  }

  lemma RecoverIsSafe(w: World, s: Snapshot)
    requires Durable(w, s) && !w.started && w.kind == Configured(w)
    ensures var (v, ok) := Recover(w);
            Durable(v, s) && !v.started && (ok ==> Working(v, s) && v.journal.None?)
  {
    if w.journal.Some? {
      var j := w.journal.value;
      var w1 := if j.target.AuthJson? then EnsureAuthInitialized(w).0 else w;
      if Decided(w1, j) {
        ForwardLeads(w1, j);
        ForwardIsSafe(w1, s, Forward(w1, j).0, Forward(w1, j).1);
      } else {
        BackwardLeads(w1, j);
        BackwardIsSafe(w1, s, Backward(w1, j).0, Backward(w1, j).1);
      }
    }
  }

  lemma InitializeIsSafe(w: World, s: Snapshot)
    requires Durable(w, s)
    ensures Safe(Initialize(w), s)
    ensures Initialize(w).started ==> Initialize(w).journal.None?
  {
    var w0 := Boot(w);
    var w1 := if w0.kind.AuthJson? then EnsureAuthInitialized(w0).0 else w0;
    RecoverIsSafe(w1, s);
  }

  // ----- moving -----

  lemma CopyIsSafe(w: World, target: Kind, s: Snapshot, v: World, ok: bool)
    requires Durable(w, s) && Working(w, s) && target != w.kind && Contents(w, target) == EMPTY
    requires AfterCopy(w, target, v, ok)
    ensures Durable(v, s) && v.kind == w.kind && v.started == w.started && (!ok ==> Working(v, s))
  {
    if ok { SelectedIsSafe(w.(journal := Some(Journal(Prepared, w.kind, target))), target, s, v); } else { StoppedCopyIsSafe(w, target, s, v); }
  }

  lemma StoppedCopyIsSafe(w: World, target: Kind, s: Snapshot, v: World)
    requires Durable(w, s) && Working(w, s) && target != w.kind && AfterCopy(w, target, v, false)
    ensures Durable(v, s) && Working(v, s)
  {
    var journalled := w.(journal := Some(Journal(Prepared, w.kind, target)));
    JournalledIsSafe(w, target, s);
    UnfinishedCopyIsSafe(journalled, target, s, Normal(s));
    if Like(w, v) { LikeIsSafe(w, v, s); }
    else if Like(journalled, v) { LikeIsSafe(journalled, v, s); }
    else { LikeIsSafe(Holding(journalled, target, Normal(s)), v, s); }
  }

  lemma SelectedIsSafe(w: World, target: Kind, s: Snapshot, v: World)
    requires target != w.kind && w.journal == Some(Journal(Prepared, w.kind, target))
    requires Like(Holding(w, target, Normal(Contents(w, w.kind))).(selection := Some(target)), v)
    requires Contents(w, w.kind) == s == Contents(v, target)
    ensures Durable(v, s)
  {
  }

  lemma JournalledIsSafe(w: World, target: Kind, s: Snapshot)
    requires Durable(w, s) && Working(w, s) && target != w.kind
    ensures var journalled := w.(journal := Some(Journal(Prepared, w.kind, target)));
            Durable(journalled, s) && Working(journalled, s)
  {
  }

  lemma UnfinishedCopyIsSafe(w: World, target: Kind, s: Snapshot, partial: Snapshot)
    requires Durable(w, s) && Working(w, s) && target != w.kind && w.journal == Some(Journal(Prepared, w.kind, target))
    ensures Durable(Holding(w, target, partial), s) && Working(Holding(w, target, partial), s)
  {
  }

  /** The store that is not current may be emptied at any time. */
  lemma OtherMayBeEmptied(w: World, target: Kind, s: Snapshot)
    requires Durable(w, s) && Working(w, s) && target != w.kind
    ensures var v := Holding(w, target, EMPTY); Durable(v, s) && Working(v, s)
  {
  }

  lemma JournalMayBeDropped(w: World, target: Kind, s: Snapshot)
    requires Durable(w, s) && Working(w, s) && target != w.kind && Contents(w, target) == EMPTY
    ensures Durable(w.(journal := None), s) && Working(w.(journal := None), s)
  {
  }

  lemma LikeIsSafe(w: World, v: World, s: Snapshot)
    requires Durable(w, s) && Working(w, s) && Like(w, v)
    ensures Durable(v, s) && Working(v, s)
  {
  }

  lemma AbandonIsSafe(w: World, target: Kind, s: Snapshot, v: World)
    requires Durable(w, s) && Working(w, s) && target != w.kind && AfterAbandon(w, target, v)
    ensures Durable(v, s) && Working(v, s) && v.kind == w.kind && v.started == w.started
  {
    var cleared := Holding(w, target, EMPTY);
    OtherMayBeEmptied(w, target, s);
    JournalMayBeDropped(cleared, target, s);
    if Like(w, v) { LikeIsSafe(w, v, s); }
    else if Like(cleared, v) { LikeIsSafe(cleared, v, s); }
    else { LikeIsSafe(cleared.(journal := None), v, s); }
  }

  lemma CompleteIsSafe(w: World, target: Kind, s: Snapshot, v: World, ok: bool)
    requires Durable(w, s) && target != w.kind && AfterComplete(w, target, v, ok)
    requires w.journal == Some(Journal(Prepared, w.kind, target)) && w.selection == Some(target)
    ensures Durable(v, s) && Working(v, s) && v.kind == target && v.started == w.started
  {
  }

  lemma SwitchIsSafe(w: World, target: Kind, s: Snapshot)
    requires Durable(w, s) && Working(w, s) && target != w.kind
    ensures var v := Switch(w, target).0; Durable(v, s) && Working(v, s) && v.started == w.started
  {
    CheckLeads(w, target);
    var (w1, refusal) := Check(w, target);
    if refusal.Some? {
      AbandonLeads(w1, target);
      AbandonIsSafe(w1, target, s, Abandon(w1, target));
    } else {
      CopyLeads(w1, target);
      var (w2, copied) := Copy(w1, target);
      CopyIsSafe(w1, target, s, w2, copied);
      if copied {
        CompleteLeads(w2, target);
        CompleteIsSafe(w2, target, s, Complete(w2, target).0, Complete(w2, target).1);
      } else {
        AbandonLeads(w2, target);
        AbandonIsSafe(w2, target, s, Abandon(w2, target));
      }
    }
  }

  lemma UpdateIsSafe(w: World, target: Kind, s: Snapshot)
    requires Safe(w, s) && w.started
    ensures Safe(UpdateStore(w, target).0, s) && UpdateStore(w, target).0.started
  {
    if target == w.kind {
      SelectCurrentIsSafe(w, s);
    } else if !w.switching {
      SwitchIsSafe(w.(switching := true), target, s);
    }
  }

  lemma SelectCurrentIsSafe(w: World, s: Snapshot)
    requires Safe(w, s) && w.started
    ensures Safe(WriteSelection(w.(migrationRequired := false), w.kind).0, s)
  {
  }

  lemma MutateIsSafe(w: World, s: Snapshot, change: Snapshot -> Snapshot)
    requires Safe(w, s) && w.started
    ensures var (v, ok) := Mutate(w, change); Safe(v, if ok then change(s) else s)
  {
  }

  // ----- whole runs -----

  datatype Op = Start | Update(target: Kind) | Change(change: Snapshot -> Snapshot)

  function Step(w: World, op: Op): World {
    match op
    case Start => Initialize(w)
    case Update(target) => if w.started then UpdateStore(w, target).0 else w
    case Change(change) => if w.started then Mutate(w, change).0 else w
  }

  /** What the user should find after `op`: only a change that was accepted makes a difference. */
  function Expected(w: World, s: Snapshot, op: Op): Snapshot {
    if op.Change? && w.started && Mutate(w, op.change).1 then op.change(s) else s
  }

  function Run(w: World, ops: seq<Op>): World
    decreases |ops|
  {
    if ops == [] then w else Run(Step(w, ops[0]), ops[1..])
  }

  function ExpectedAfter(w: World, s: Snapshot, ops: seq<Op>): Snapshot
    decreases |ops|
  {
    if ops == [] then s else ExpectedAfter(Step(w, ops[0]), Expected(w, s, ops[0]), ops[1..])
  }

  lemma StepIsSafe(w: World, s: Snapshot, op: Op)
    requires Safe(w, s)
    ensures Safe(Step(w, op), Expected(w, s, op))
  {
    match op
    case Start => InitializeIsSafe(w, s);
    case Update(target) => if w.started { UpdateIsSafe(w, target, s); }
    case Change(change) => if w.started { MutateIsSafe(w, s, change); }
  }

  /** Whatever is started, moved and changed, and wherever commands fail or the process dies, the store that
      recovery will choose holds exactly the credentials the user should find. */
  lemma {:induction false} NoCredentialIsLost(w: World, s: Snapshot, ops: seq<Op>)
    requires Safe(w, s)
    ensures Safe(Run(w, ops), ExpectedAfter(w, s, ops))
    decreases |ops|
  {
    if ops != [] {
      StepIsSafe(w, s, ops[0]);
      NoCredentialIsLost(Step(w, ops[0]), Expected(w, s, ops[0]), ops[1..]);
    }
  }
}
