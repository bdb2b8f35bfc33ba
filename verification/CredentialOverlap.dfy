/** Calls of the credential manager that overlap.

    Each step of a move between two awaits is a step of its own, and changes, further updates and the writes of the
    selection interleave with it.  Writes of the selection take effect in the order they were requested, as all writes
    to one configuration file do. */
module CredentialOverlap {
  import opened Options
  import opened CredentialStores
  import opened CredentialSafety

  /** What a move does next, and the snapshot it has taken.  While `Selecting` it waits for its own write of the
      selection; once `Selected` that write has taken effect, but the move has not gone on yet. */
  datatype Stage =
    | Ensuring | ValidatingSource | ValidatingTarget | Exporting
    | Journalling(snapshot: Snapshot) | Copying(snapshot: Snapshot) | ReadingBack(snapshot: Snapshot)
    | Selecting(snapshot: Snapshot) | Selected(snapshot: Snapshot) | Clearing | Closing
    | Abandoning | Dropping

  datatype Move = Move(source: Kind, target: Kind, stage: Stage)

  /** A requested write of the selection.  It is stray if no move reckons with it: it was requested, for the store still
      current, when a move had already requested its own; or it is that of a move which was told that it failed. */
  datatype Ask = Ask(kind: Kind, byMove: bool, stray: bool)

  /** A change that was let in while no move was under way, and the store it is for. */
  datatype Begun = Begun(kind: Kind, change: Snapshot -> Snapshot)

  /** `last` is the last write of the selection that took effect in this life of the process. */
  datatype System = System(w: World, move: Option<Move>, asks: seq<Ask>, last: Option<Ask>, begun: seq<Begun>)

  datatype Event =
    | Restart | CallUpdate(target: Kind) | BeginChange(change: Snapshot -> Snapshot) | FinishChange(i: nat)
    | Advance | Land(told: bool)

  function At(y: System, w: World, stage: Stage): System
    requires y.move.Some?
  {
    y.(w := w, move := Some(y.move.value.(stage := stage)))
  }

  function Over(y: System, w: World): System { y.(w := w.(switching := false), move := None) }

  /** The next effect of the move, and where it leads. */
  function Advanced(y: System): System
    requires y.move.Some?
  {
    var m := y.move.value;
    match m.stage
    case Ensuring =>
      var (v, ok) := if m.target.AuthJson? then EnsureAuthInitialized(y.w) else (y.w, true);
      At(y, v, if ok then ValidatingSource else Abandoning)
    case ValidatingSource =>
      var (v, ok) := Try(y.w);
      At(y, v, if ok then ValidatingTarget else Abandoning)
    case ValidatingTarget =>
      var (v, ok) := Try(y.w);
      At(y, v, if ok && Usable(v, m.target) && Contents(v, m.target) == EMPTY then Exporting else Abandoning)
    case Exporting =>
      var (v, ok) := Try(y.w);
      At(y, v, if ok then Journalling(Contents(v, m.source)) else Abandoning)
    case Journalling(snapshot) =>
      var (v, ok) := WriteJournal(y.w, Some(Journal(Prepared, m.source, m.target)));
      At(y, v, if ok then Copying(snapshot) else Abandoning)
    case Copying(snapshot) =>
      var (v, ok) := Replace(y.w, m.target, snapshot);
      At(y, v, if ok then ReadingBack(snapshot) else Abandoning)
    case ReadingBack(snapshot) =>
      var (v, ok) := Try(y.w);
      if ok && Contents(v, m.target) == snapshot then At(y, v, Selecting(snapshot)).(asks := y.asks + [Ask(m.target, true, false)])
      else At(y, v, Abandoning)
    case Selecting(_) => y
    case Selected(_) =>
      var (v, ok) := WriteJournal(y.w.(kind := m.target, migrationRequired := false), Some(Journal(Committed, m.source, m.target)));
      if ok then At(y, v, Clearing) else Over(y, v)
    case Clearing =>
      var (v, ok) := Clear(y.w, m.source);
      if ok then At(y, v, Closing) else Over(y, v)
    case Closing => Over(y, WriteJournal(y.w, None).0)
    case Abandoning =>
      var (v, ok) := Clear(y.w, m.target);
      if ok then At(y, v, Dropping) else Over(y, v)
    case Dropping => Over(y, WriteJournal(y.w, None).0)
  }

  /** The oldest requested write of the selection takes effect, or fails; the move learns of its own.  A write that
      took effect may still be reported as failed, when the file cannot be read again: then `told` is false. */
  function Landed(y: System, told: bool): System
    requires y.asks != []
  {
    var ask := y.asks[0];
    var (v, ok) := WriteSelection(y.w, ask.kind);
    var z := y.(w := v, asks := y.asks[1..], last := if ok then Some(ask.(stray := ask.stray || (ask.byMove && !told))) else y.last);
    if ask.byMove && y.move.Some? && y.move.value.stage.Selecting?
    then At(z, v, if ok && told then Selected(y.move.value.stage.snapshot) else Abandoning)
    else z
  }

  /** The selection is on its way to the target, but the source is still current. */
  predicate Turning(y: System) { y.move.Some? && (y.move.value.stage.Selecting? || y.move.value.stage.Selected?) }

  function Updating(y: System, target: Kind): System {
    if target == y.w.kind then y.(w := y.w.(migrationRequired := false), asks := y.asks + [Ask(target, false, Turning(y))])
    else if y.w.switching then y
    else y.(w := y.w.(switching := true), move := Some(Move(y.w.kind, target, Ensuring)))
  }

  /** A change reads and writes its store in one step; the store it is for was chosen when it began. */
  function Changed(y: System, i: nat): (System, bool)
    requires i < |y.begun|
  {
    var (v, ok) := Put(y.w, y.begun[i].kind, y.begun[i].change(Contents(y.w, y.begun[i].kind)));
    (y.(w := v, begun := y.begun[..i] + y.begun[i + 1..]), ok)
  }

  function After(y: System, e: Event): System {
    match e
    case Restart => Idle(Initialize(y.w))
    case CallUpdate(target) => if y.w.started then Updating(y, target) else y
    case BeginChange(change) => if y.w.started && !y.w.switching then y.(begun := y.begun + [Begun(y.w.kind, change)]) else y
    case FinishChange(i) => if i < |y.begun| then Changed(y, i).0 else y
    case Advance => if y.move.Some? then Advanced(y) else y
    case Land(told) => if y.asks != [] then Landed(y, told) else y
  }

  /** What the user should find after an event: only a change that was accepted makes a difference. */
  function Owed(y: System, s: Snapshot, e: Event): Snapshot {
    if e.FinishChange? && e.i < |y.begun| && Changed(y, e.i).1 then y.begun[e.i].change(s) else s
  }

  function Idle(w: World): System { System(w, None, [], None, []) }

  function RunAll(y: System, events: seq<Event>): System
    decreases |events|
  {
    if events == [] then y else RunAll(After(y, events[0]), events[1..])
  }

  function OwedAfter(y: System, s: Snapshot, events: seq<Event>): Snapshot
    decreases |events|
  {
    if events == [] then s else OwedAfter(After(y, events[0]), Owed(y, s, events[0]), events[1..])
  }

  // ----- the invariant -----

  /** The current store has everything, and the journal is about it. */
  ghost predicate Base(w: World, s: Snapshot) {
    && Contents(w, w.kind) == s
    && (w.journal.None? ==> Contents(w, Other(w.kind)) == EMPTY)
    && (w.journal.Some? ==>
          var j := w.journal.value;
          && j.source != j.target && (j.phase.Committed? ==> w.kind == j.target)
          && (w.kind == j.target ==> w.selection.Some?))
  }

  /** What the move has reached; nothing here depends on what the selection says. */
  ghost predicate Reached(w: World, s: Snapshot, m: Move) {
    && m.source != m.target && Base(w, s)
    && w.kind == (if m.stage.Clearing? || m.stage.Closing? then m.target else m.source)
    && match m.stage
       case Exporting => Contents(w, m.target) == EMPTY
       case Journalling(_) => Contents(w, m.target) == EMPTY
       case Copying(_) => w.journal == Some(Journal(Prepared, m.source, m.target))
       case ReadingBack(_) => w.journal == Some(Journal(Prepared, m.source, m.target))
       case Selecting(snapshot) => w.journal == Some(Journal(Prepared, m.source, m.target)) && Contents(w, m.target) == snapshot
       case Selected(snapshot) =>
         w.journal == Some(Journal(Prepared, m.source, m.target)) && Contents(w, m.target) == snapshot && w.selection.Some?
       case Clearing => w.journal == Some(Journal(Committed, m.source, m.target))
       case Closing => Contents(w, m.source) == EMPTY
       case Dropping => Contents(w, m.target) == EMPTY
       case _ => true
  }

  /** No write of a move is requested; those that are not stray are for the current store. */
  ghost predicate Plain(asks: seq<Ask>, k: Kind) {
    forall a <- asks :: !a.byMove && (a.stray || a.kind == k)
  }

  ghost predicate AllStray(asks: seq<Ask>) { forall a <- asks :: !a.byMove && a.stray }

  /** The move's own write comes after those for its source, and before stray ones only. */
  ghost predicate Around(asks: seq<Ask>, source: Kind, target: Kind) {
    && asks != []
    && if asks[0].byMove then asks[0] == Ask(target, true, false) && AllStray(asks[1..])
       else (asks[0].stray || asks[0].kind == source) && Around(asks[1..], source, target)
  }

  ghost predicate Queued(y: System) {
    if y.move.Some? && y.move.value.stage.Selecting? then Around(y.asks, y.move.value.source, y.move.value.target)
    else if y.move.Some? && y.move.value.stage.Selected? then AllStray(y.asks)
    else Plain(y.asks, y.w.kind)
  }

  /** The last write of the selection was stray, or the selection is for the store the process is on or turns to. */
  ghost predicate Pointing(y: System) {
    && (y.last.Some? ==> y.w.selection == Some(y.last.value.kind))
    && ((y.last.Some? && y.last.value.stray)
        || if y.move.Some? && y.move.value.stage.Selected? then y.w.selection == Some(y.move.value.target)
           else y.w.selection.Some? ==> y.w.selection.value == y.w.kind)
  }

  ghost predicate Inv(y: System, s: Snapshot) {
    if !y.w.started then y == Idle(y.w) && Durable(y.w, s)
    else
      && (y.w.switching <==> y.move.Some?)
      && (if y.move.Some? then Reached(y.w, s, y.move.value) else Base(y.w, s))
      && Queued(y) && Pointing(y)
  }

  /** The selection was last written for a store that is not the current one. */
  predicate Misled(y: System) { y.last.Some? && y.last.value.stray && y.last.value.kind != y.w.kind }

  /** The move is about to turn to a copy of what its source no longer has. */
  predicate Torn(y: System) {
    y.move.Some? && y.move.value.stage.Selected? && y.move.value.stage.snapshot != Contents(y.w, y.move.value.source)
  }

  /** A start that goes by a selection written for another store, or while a move is torn; a torn move that goes on; a
      change of a store that is not current. */
  predicate Amiss(y: System, e: Event) {
    match e
    case Restart => Misled(y) || Torn(y)
    case Advance => Torn(y)
    case FinishChange(i) => i < |y.begun| && y.begun[i].kind != y.w.kind
    case _ => false
  }

  // ----- each event keeps it -----

  lemma StartKeepsInv(y: System, s: Snapshot)
    requires Durable(y.w, s)
    ensures Inv(After(y, Restart), s)
  {
    InitializeIsSafe(y.w, s);
    InitializeIsIdle(y.w);
  }

  lemma InitializeIsIdle(w: World)
    ensures !Initialize(w).switching
  {
  }

  /** Unless the selection was last written for another store or a move is torn, what is on disk alone leads back to
      everything. */
  lemma DurableUnlessMisled(y: System, s: Snapshot)
    requires Inv(y, s) && !Misled(y) && !Torn(y)
    ensures Durable(y.w, s)
  {
  }

  lemma {:induction false} AroundGrows(asks: seq<Ask>, source: Kind, target: Kind, a: Ask)
    requires Around(asks, source, target) && !a.byMove && a.stray
    ensures Around(asks + [a], source, target)
  {
    assert (asks + [a])[1..] == asks[1..] + [a];
    if !asks[0].byMove { AroundGrows(asks[1..], source, target, a); }
  }

  lemma {:induction false} PlainThenOwn(asks: seq<Ask>, source: Kind, target: Kind)
    requires Plain(asks, source)
    ensures Around(asks + [Ask(target, true, false)], source, target)
  {
    var own := Ask(target, true, false);
    if asks == [] {
      assert [own][1..] == [];
    } else {
      assert (asks + [own])[1..] == asks[1..] + [own];
      PlainThenOwn(asks[1..], source, target);
    }
  }

  lemma UpdateKeepsInv(y: System, s: Snapshot, target: Kind)
    requires Inv(y, s) && y.w.started
    ensures Inv(Updating(y, target), s)
  {
    if target == y.w.kind && Turning(y) && y.move.value.stage.Selecting? {
      AroundGrows(y.asks, y.move.value.source, y.move.value.target, Ask(target, false, true));
    }
  }

  lemma BeginKeepsInv(y: System, s: Snapshot, change: Snapshot -> Snapshot)
    requires Inv(y, s)
    ensures Inv(After(y, BeginChange(change)), s)
  {
  }

  lemma HoldKeepsBase(w: World, s: Snapshot, t: Snapshot)
    requires Base(w, s)
    ensures Base(Holding(w, w.kind, t), t)
  {
  }

  lemma HoldKeepsReached(w: World, s: Snapshot, m: Move, t: Snapshot)
    requires Reached(w, s, m)
    ensures Reached(Holding(w, w.kind, t), t, m)
  {
    HoldKeepsBase(w, s, t);
    assert Contents(Holding(w, w.kind, t), Other(w.kind)) == Contents(w, Other(w.kind));
  }

  lemma PutKeepsReached(w: World, s: Snapshot, move: Option<Move>, t: Snapshot)
    requires if move.Some? then Reached(w, s, move.value) else Base(w, s)
    ensures var (v, ok) := Put(w, w.kind, t);
            var u := if ok then t else s;
            if move.Some? then Reached(v, u, move.value) else Base(v, u)
  {
    var (tried, _) := Try(w);
    if move.Some? { HoldKeepsReached(tried, s, move.value, t); } else { HoldKeepsBase(tried, s, t); }
  }

  lemma FinishKeepsInv(y: System, s: Snapshot, i: nat)
    requires Inv(y, s) && i < |y.begun| && y.begun[i].kind == y.w.kind
    ensures Inv(Changed(y, i).0, Owed(y, s, FinishChange(i)))
  {
    if y.w.started { PutKeepsReached(y.w, s, y.move, y.begun[i].change(s)); }
  }

  lemma OwnLandKeepsInv(y: System, s: Snapshot, told: bool)
    requires Inv(y, s) && y.asks != [] && y.asks[0].byMove
    ensures Inv(Landed(y, told), s)
  {
  }

  lemma OtherLandKeepsInv(y: System, s: Snapshot, told: bool)
    requires Inv(y, s) && y.asks != [] && !y.asks[0].byMove
    ensures Inv(Landed(y, told), s)
  {
  }

  lemma PrepareKeepsInv(y: System, s: Snapshot)
    requires Inv(y, s) && y.move.Some? && (y.move.value.stage.Ensuring? || y.move.value.stage.ValidatingSource?)
    ensures Inv(Advanced(y), s)
  {
  }

  lemma CheckKeepsInv(y: System, s: Snapshot)
    requires Inv(y, s) && y.move.Some? && y.move.value.stage.ValidatingTarget?
    ensures Inv(Advanced(y), s)
  {
  }

  lemma ExportKeepsInv(y: System, s: Snapshot)
    requires Inv(y, s) && y.move.Some? && y.move.value.stage.Exporting?
    ensures Inv(Advanced(y), s)
  {
  }

  lemma CopyKeepsInv(y: System, s: Snapshot)
    requires Inv(y, s) && y.move.Some? && (y.move.value.stage.Journalling? || y.move.value.stage.Copying?)
    ensures Inv(Advanced(y), s)
  {
  }

  lemma CompareKeepsInv(y: System, s: Snapshot)
    requires Inv(y, s) && y.move.Some? && y.move.value.stage.ReadingBack?
    ensures Inv(Advanced(y), s)
  {
    var z := Advanced(y);
    assert Reached(z.w, s, z.move.value);
    if z.move.value.stage.Selecting? { PlainThenOwn(y.asks, y.move.value.source, y.move.value.target); }
  }

  lemma TurnKeepsInv(y: System, s: Snapshot)
    requires Inv(y, s) && y.move.Some? && (y.move.value.stage.Selecting? || y.move.value.stage.Selected?) && !Torn(y)
    ensures Inv(Advanced(y), s)
  {
  }

  lemma ClearKeepsInv(y: System, s: Snapshot)
    requires Inv(y, s) && y.move.Some? && y.move.value.stage.Clearing?
    ensures Inv(Advanced(y), s)
  {
  }

  lemma CloseKeepsInv(y: System, s: Snapshot)
    requires Inv(y, s) && y.move.Some? && y.move.value.stage.Closing?
    ensures Inv(Advanced(y), s)
  {
  }

  lemma AbandonKeepsInv(y: System, s: Snapshot)
    requires Inv(y, s) && y.move.Some? && y.move.value.stage.Abandoning?
    ensures Inv(Advanced(y), s)
  {
  }

  lemma DropKeepsInv(y: System, s: Snapshot)
    requires Inv(y, s) && y.move.Some? && y.move.value.stage.Dropping?
    ensures Inv(Advanced(y), s)
  {
  }

  lemma AfterKeepsInv(y: System, s: Snapshot, e: Event)
    requires Inv(y, s) && !Amiss(y, e)
    ensures Inv(After(y, e), Owed(y, s, e))
  {
    match e
    case Restart =>
      DurableUnlessMisled(y, s);
      StartKeepsInv(y, s);
    case CallUpdate(target) => if y.w.started { UpdateKeepsInv(y, s, target); }
    case BeginChange(change) => BeginKeepsInv(y, s, change);
    case FinishChange(i) => if i < |y.begun| { FinishKeepsInv(y, s, i); }
    case Land(told) => if y.asks != [] { if y.asks[0].byMove { OwnLandKeepsInv(y, s, told); } else { OtherLandKeepsInv(y, s, told); } }
    case Advance =>
      if y.move.Some? {
        match y.move.value.stage
        case Journalling(_) => CopyKeepsInv(y, s);
        case Copying(_) => CopyKeepsInv(y, s);
        case ReadingBack(_) => CompareKeepsInv(y, s);
        case Selecting(_) => TurnKeepsInv(y, s);
        case Selected(_) => TurnKeepsInv(y, s);
        case Clearing => ClearKeepsInv(y, s);
        case Closing => CloseKeepsInv(y, s);
        case Abandoning => AbandonKeepsInv(y, s);
        case Dropping => DropKeepsInv(y, s);
        case ValidatingTarget => CheckKeepsInv(y, s);
        case Exporting => ExportKeepsInv(y, s);
        case _ => PrepareKeepsInv(y, s);
      }
  }

  // ----- whole runs -----

  ghost predicate NothingAmiss(y: System, events: seq<Event>)
    decreases |events|
  {
    events != [] ==> !Amiss(y, events[0]) && NothingAmiss(After(y, events[0]), events[1..])
  }

  lemma {:induction false} RunKeepsInv(y: System, s: Snapshot, events: seq<Event>)
    requires Inv(y, s) && NothingAmiss(y, events)
    ensures Inv(RunAll(y, events), OwedAfter(y, s, events))
    decreases |events|
  {
    if events != [] {
      AfterKeepsInv(y, s, events[0]);
      RunKeepsInv(After(y, events[0]), Owed(y, s, events[0]), events[1..]);
    }
  }

  /** A start that comes up serves the store that the journal and the selection lead to. */
  lemma StartServes(w: World)
    requires Initialize(w).started && (w.journal.Some? ==> w.journal.value.source != w.journal.value.target)
    ensures Contents(Initialize(w), Initialize(w).kind) == Contents(w, Holder(w))
  {
    var w0 := Boot(w);
    var w1 := if w0.kind.AuthJson? then EnsureAuthInitialized(w0).0 else w0;
    RecoverServes(w1);
  }

  lemma RecoverServes(w: World)
    requires w.kind == Configured(w) && Recover(w).1 && (w.journal.Some? ==> w.journal.value.source != w.journal.value.target)
    ensures Contents(Recover(w).0, Recover(w).0.kind) == Contents(w, Holder(w))
  {
    if w.journal.Some? {
      var j := w.journal.value;
      var w1 := if j.target.AuthJson? then EnsureAuthInitialized(w).0 else w;
      if Decided(w1, j) { ForwardLeads(w1, j); } else { BackwardLeads(w1, j); }
    }
  }

  /** What the next start serves, if it comes up. */
  ghost predicate Serves(w: World, s: Snapshot) {
    Initialize(w).started ==> Contents(Initialize(w), Initialize(w).kind) == s
  }

  lemma ServesExactlyWhen(y: System, s: Snapshot)
    requires Inv(y, s) && Initialize(y.w).started && (y.w.journal.Some? ==> y.w.journal.value.phase.Committed?)
    ensures Serves(y.w, s) <==> s == EMPTY || y.w.journal.Some? || !Misled(y)
  {
    StartServes(y.w);
    if !Misled(y) && !Torn(y) { DurableUnlessMisled(y, s); }
  }

  /** Main result on overlapping calls.  Over every interleaving of the steps of moves with changes, further updates,
      writes of the selection, deaths and restarts, with any effects failing, as long as nothing is amiss: a running
      process always works on a store that has every accepted change; what is on disk leads back to all of it unless
      the selection was last written for another store or a move is torn; and with no move left undecided, the next
      start serves all of it exactly unless that is so, no move is left to complete, and there is anything to lose. */
  lemma OverlappingCallsLoseNothing(w: World, s: Snapshot, events: seq<Event>)
    requires !w.started && Durable(w, s) && NothingAmiss(Idle(w), events)
    ensures var y, owed := RunAll(Idle(w), events), OwedAfter(Idle(w), s, events);
            && (y.w.started ==> Contents(y.w, y.w.kind) == owed)
            && (!Misled(y) && !Torn(y) ==> Durable(y.w, owed) && Serves(y.w, owed))
            && (Initialize(y.w).started && (y.w.journal.Some? ==> y.w.journal.value.phase.Committed?) ==>
                  (Serves(y.w, owed) <==> owed == EMPTY || y.w.journal.Some? || !Misled(y)))
  {
    RunKeepsInv(Idle(w), s, events);
    var y, owed := RunAll(Idle(w), events), OwedAfter(Idle(w), s, events);
    if !Misled(y) && !Torn(y) {
      DurableUnlessMisled(y, owed);
      InitializeIsSafe(y.w, owed);
    }
    if Initialize(y.w).started && (y.w.journal.Some? ==> y.w.journal.value.phase.Committed?) { ServesExactlyWhen(y, owed); }
  }

  /** What is amiss does lose something: a torn move that goes on leaves the process without a change that was
      accepted. */
  lemma AdvanceLosesExactlyWhen(y: System, s: Snapshot)
    requires Inv(y, s) && y.w.started
    ensures var z := After(y, Advance); z.w.started && (Contents(z.w, z.w.kind) == s <==> !Torn(y))
  {
    AdvanceStays(y);
    if Torn(y) { TornLoses(y, s); } else { AfterKeepsInv(y, s, Advance); }
  }

  lemma AdvanceStays(y: System)
    ensures After(y, Advance).w.started == y.w.started
  {
    if y.move.Some? {
      if StepsLeft(y.move.value.stage) >= 6 { CopyStays(y); } else { TurnStays(y); }
    }
  }

  lemma CopyStays(y: System)
    requires y.move.Some? && StepsLeft(y.move.value.stage) >= 6
    ensures Advanced(y).w.started == y.w.started
  {
  }

  lemma TurnStays(y: System)
    requires y.move.Some? && StepsLeft(y.move.value.stage) < 6
    ensures Advanced(y).w.started == y.w.started
  {
  }

  lemma TornLoses(y: System, s: Snapshot)
    requires Inv(y, s) && y.w.started && Torn(y)
    ensures Contents(Advanced(y).w, Advanced(y).w.kind) != s
  {
  }

  /** So does a change of a store that is not current, if it succeeds and makes a difference. */
  lemma FinishLosesExactlyWhen(y: System, s: Snapshot, i: nat)
    requires Inv(y, s) && y.w.started && i < |y.begun|
    ensures var (z, ok) := Changed(y, i);
            Contents(z.w, z.w.kind) == Owed(y, s, FinishChange(i)) <==> y.begun[i].kind == y.w.kind || !ok || y.begun[i].change(s) == s
  {
  }

  predicate HasSnapshot(stage: Stage) {
    stage.Journalling? || stage.Copying? || stage.ReadingBack? || stage.Selecting? || stage.Selected?
  }

  /** An update to the store still current while a move turns away from it; a write of a move that takes effect and is
      reported as failed; a change that ends after a move has taken its snapshot, or for a store no longer current. */
  predicate Hurried(y: System, e: Event) {
    match e
    case CallUpdate(target) => y.w.started && target == y.w.kind && Turning(y)
    case Land(told) => !told && y.asks != [] && y.asks[0].byMove && y.w.grants(y.w.clock)
    case FinishChange(i) =>
      i < |y.begun| && (y.begun[i].kind != y.w.kind || (y.move.Some? && HasSnapshot(y.move.value.stage)))
    case _ => false
  }

  /** Nothing of the kind happens. */
  ghost predicate Patient(y: System, events: seq<Event>)
    decreases |events|
  {
    events != [] ==> !Hurried(y, events[0]) && Patient(After(y, events[0]), events[1..])
  }

  ghost predicate NoneStray(y: System) { (forall a <- y.asks :: !a.stray) && (y.last.Some? ==> !y.last.value.stray) }

  ghost predicate NoneTorn(y: System) {
    y.move.Some? ==>
      var m := y.move.value; m.source != m.target && (HasSnapshot(m.stage) ==> m.stage.snapshot == Contents(y.w, m.source))
  }

  lemma AfterNoneStray(y: System, e: Event)
    requires NoneStray(y) && !Hurried(y, e)
    ensures NoneStray(After(y, e))
  {
  }

  lemma AdvanceNoneTorn(y: System)
    requires NoneTorn(y) && y.move.Some?
    ensures NoneTorn(Advanced(y))
  {
    if HasSnapshot(y.move.value.stage) { SnapshotStays(y); }
  }

  lemma SnapshotStays(y: System)
    requires NoneTorn(y) && y.move.Some? && HasSnapshot(y.move.value.stage)
    ensures NoneTorn(Advanced(y))
  {
  }

  lemma AfterNoneTorn(y: System, e: Event)
    requires NoneTorn(y) && !Hurried(y, e)
    ensures NoneTorn(After(y, e))
  {
    if e.Advance? {
      if y.move.Some? { AdvanceNoneTorn(y); }
    } else {
      OtherNoneTorn(y, e);
    }
  }

  lemma OtherNoneTorn(y: System, e: Event)
    requires NoneTorn(y) && !Hurried(y, e) && !e.Advance?
    ensures NoneTorn(After(y, e))
  {
  }

  /** Then nothing is ever amiss, whatever else overlaps and fails. */
  lemma {:induction false} PatientIsNeverAmiss(y: System, events: seq<Event>)
    requires NoneStray(y) && NoneTorn(y) && Patient(y, events)
    ensures NothingAmiss(y, events) && !Misled(RunAll(y, events)) && !Torn(RunAll(y, events))
    decreases |events|
  {
    if events != [] {
      AfterNoneStray(y, events[0]);
      AfterNoneTorn(y, events[0]);
      PatientIsNeverAmiss(After(y, events[0]), events[1..]);
    }
  }

  lemma PatientCallsAreSafe(w: World, s: Snapshot, events: seq<Event>)
    requires !w.started && Durable(w, s) && Patient(Idle(w), events)
    ensures var y, owed := RunAll(Idle(w), events), OwedAfter(Idle(w), s, events);
            Durable(y.w, owed) && Serves(y.w, owed) && (y.w.started ==> Contents(y.w, y.w.kind) == owed)
  {
    PatientIsNeverAmiss(Idle(w), events);
    OverlappingCallsLoseNothing(w, s, events);
  }

  // ----- a move that nothing overlaps -----

  function StepsLeft(stage: Stage): nat {
    match stage
    case Ensuring => 12
    case ValidatingSource => 11
    case ValidatingTarget => 10
    case Exporting => 9
    case Journalling(_) => 8
    case Copying(_) => 7
    case ReadingBack(_) => 6
    case Selecting(_) => 5
    case Selected(_) => 4
    case Clearing => 3
    case Abandoning => 2
    case _ => 1
  }

  /** The move runs to its end with nothing in between. */
  function Settled(y: System): System
    decreases if y.move.Some? then StepsLeft(y.move.value.stage) else 0
  {
    if y.move.None? then y
    else if y.move.value.stage.Selecting? then (if y.asks != [] && y.asks[0].byMove then Settled(Landed(y, true)) else y)
    else Settled(Advanced(y))
  }

  lemma AbandonSettles(y: System)
    requires y.move.Some? && y.move.value.stage.Abandoning?
    ensures Settled(y).w == Abandon(y.w, y.move.value.target).(switching := false) && Settled(y).move.None? && Settled(y).asks == y.asks
  {
    var z := Advanced(y);
    if z.move.Some? { assert Settled(z) == Settled(Advanced(z)); }
  }

  lemma ClearSettles(y: System)
    requires y.move.Some? && y.move.value.stage.Clearing?
    ensures var (v, ok) := Clear(y.w, y.move.value.source);
            Settled(y).w == (if ok then WriteJournal(v, None).0 else v).(switching := false)
    ensures Settled(y).move.None? && Settled(y).asks == y.asks
  {
    var z := Advanced(y);
    if z.move.Some? { assert Settled(z) == Settled(Advanced(z)); }
  }

  lemma CompleteSettles(y: System)
    requires y.move.Some? && y.move.value.stage.Selected? && y.w.kind == y.move.value.source
    ensures Settled(y).w == Complete(y.w, y.move.value.target).0.(switching := false) && Settled(y).move.None? && Settled(y).asks == y.asks
  {
    var z := Advanced(y);
    if z.move.Some? { ClearSettles(z); }
  }

  /** What follows the copy. */
  function Concluded(w: World, target: Kind, copied: bool): World {
    (if copied then Complete(w, target).0 else Abandon(w, target)).(switching := false)
  }

  lemma CompareSettles(y: System)
    requires y.move.Some? && y.move.value.stage.ReadingBack? && y.w.kind == y.move.value.source && y.asks == []
    ensures var m := y.move.value;
            var (w1, readBack) := Try(y.w);
            var (w2, copied) := if readBack && Contents(w1, m.target) == m.stage.snapshot then WriteSelection(w1, m.target) else (w1, false);
            Settled(y).w == Concluded(w2, m.target, copied) && Settled(y).move.None? && Settled(y).asks == []
  {
    var z := Advanced(y);
    if z.move.value.stage.Selecting? {
      var u := Landed(z, true);
      assert Settled(z) == Settled(u);
      if u.move.value.stage.Selected? { CompleteSettles(u); } else { AbandonSettles(u); }
    } else {
      AbandonSettles(z);
    }
  }

  lemma TranscribeSettles(y: System)
    requires y.move.Some? && y.move.value.stage.Copying? && y.w.kind == y.move.value.source && y.asks == []
    ensures var m := y.move.value;
            var (v, copied) := Transcribe(y.w, m.target, m.stage.snapshot);
            Settled(y).w == Concluded(v, m.target, copied) && Settled(y).move.None? && Settled(y).asks == []
  {
    var z := Advanced(y);
    if z.move.value.stage.Abandoning? { AbandonSettles(z); } else { CompareSettles(z); }
  }

  lemma CopySettles(y: System)
    requires y.move.Some? && y.move.value.stage.Exporting? && y.w.kind == y.move.value.source && y.asks == []
    ensures var (v, copied) := Copy(y.w, y.move.value.target);
            Settled(y).w == Concluded(v, y.move.value.target, copied) && Settled(y).move.None? && Settled(y).asks == []
  {
    var z := Advanced(y);
    if z.move.value.stage.Abandoning? {
      AbandonSettles(z);
    } else {
      var u := Advanced(z);
      assert Settled(z) == Settled(u);
      if u.move.value.stage.Abandoning? { AbandonSettles(u); } else { TranscribeSettles(u); }
    }
  }

  lemma ValidateSettles(y: System)
    requires y.move.Some? && y.move.value.stage.ValidatingSource? && y.w.kind == y.move.value.source && y.asks == []
    ensures var target := y.move.value.target;
            var (w1, sourceValid) := Try(y.w);
            var (w2, targetValid) := Try(w1);
            var (v, copied) := Copy(w2, target);
            Settled(y).w == if !sourceValid then Concluded(w1, target, false)
                            else if targetValid && Usable(w2, target) && Contents(w2, target) == EMPTY then Concluded(v, target, copied)
                            else Concluded(w2, target, false)
    ensures Settled(y).move.None? && Settled(y).asks == []
  {
    var z := Advanced(y);
    if z.move.value.stage.Abandoning? {
      AbandonSettles(z);
    } else {
      var u := Advanced(z);
      assert Settled(z) == Settled(u);
      if u.move.value.stage.Abandoning? { AbandonSettles(u); } else { CopySettles(u); }
    }
  }

  lemma CheckSettles(y: System)
    requires y.move.Some? && y.move.value.stage.Ensuring? && y.w.kind == y.move.value.source && y.asks == []
    ensures Settled(y).w == Switch(y.w, y.move.value.target).0.(switching := false) && Settled(y).move.None? && Settled(y).asks == []
  {
    var z := Advanced(y);
    if z.move.value.stage.Abandoning? { AbandonSettles(z); } else { ValidateSettles(z); }
  }

  /** Taken step by step with nothing in between, a move is the single transition that the manager makes. */
  lemma UndisturbedMoveIsUpdate(w: World, target: Kind)
    requires w.started && target != w.kind && !w.switching
    ensures Settled(Updating(Idle(w), target)).w == UpdateStore(w, target).0
  {
    CheckSettles(Updating(Idle(w), target));
  }

  /** And a change that nothing overlaps is the manager's. */
  lemma UndisturbedChangeIsMutate(w: World, change: Snapshot -> Snapshot)
    requires w.started
    ensures After(After(Idle(w), BeginChange(change)), FinishChange(0)).w == Mutate(w, change).0
  {
  }
}
