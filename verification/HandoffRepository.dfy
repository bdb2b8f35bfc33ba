/** The durable record of handoff operations: one row per operation id, changed by single SQL
    statements (or one transaction), each guarded by the row's status, step and revision. */
module HandoffRepository {
  import opened Options
  import opened Git

  datatype Step =
    | Preflight | StopSource | PrepareDestination | CaptureSource | ReleaseBranch
    | CheckoutDestination | ApplySourceChanges | ForkConversation | TransferCoreState
    | AwaitClientTransfer | ArchiveSource | Complete

  datatype Status = Running | AwaitingClient | Completed | Failed | RollbackFailed

  datatype Direction = LocalToWorktree | WorktreeToLocal

  datatype ErrorCode =
    | Conflict | ThreadNotFound | HandoffInProgress | ClientTransferRequired | RollbackIncomplete
    | NotGit | LocalDetached | WorktreeDetached | DefaultBranch | BranchInUse | DestinationDirty
    | HeadMismatch | StashFailed | CheckoutFailed | ApplyFailed | HistoryUnsupported

  datatype Journal = Journal(
    sourceHead: Option<Commit>,
    sourceBranch: Option<Branch>,
    destinationHead: Option<Commit>,
    destinationBranch: Option<Branch>,
    sourceStashRef: Option<nat>,
    destinationStashRef: Option<nat>,
    destinationStashApplied: bool,
    sourceDetached: bool,
    destinationCreated: bool,
    sourceStashMarker: Option<Marker>,
    destinationStashMarker: Option<Marker>)

  const EMPTY_JOURNAL := Journal(None, None, None, None, None, None, false, false, false, None, None)

  /** What a request hash identifies; the hash is taken to be injective. */
  datatype Request = Request(sourceThread: string, direction: Direction, destination: Option<string>)

  datatype Row = Row(
    sourceThread: string,
    targetThread: Option<string>,
    targetBinding: Option<string>,
    request: Request,
    status: Status,
    step: Step,
    revision: nat,
    error: Option<ErrorCode>,
    warnings: seq<string>,
    journal: Journal)

  /** `Hidden` is the mark of a forked thread that is not listed yet. */
  datatype Visibility = Listed | Archived | Hidden

  datatype Store = Store(rows: map<string, Row>, threads: map<string, Visibility>)

  datatype Change = Change(targetThread: Option<string>, warning: Option<string>, journal: Journal)

  const NO_CHANGE := Change(None, None, EMPTY_JOURNAL)

  function StepIndex(step: Step): nat {
    match step
    case Preflight => 0
    case StopSource => 1
    case PrepareDestination => 2
    case CaptureSource => 3
    case ReleaseBranch => 4
    case CheckoutDestination => 5
    case ApplySourceChanges => 6
    case ForkConversation => 7
    case TransferCoreState => 8
    case AwaitClientTransfer => 9
    case ArchiveSource => 10
    case Complete => 11
  }

  predicate Active(status: Status) { status.Running? || status.AwaitingClient? }

  function Override<T>(base: Option<T>, patch: Option<T>): Option<T> { if patch.Some? then patch else base }

  /** `{ ...base, ...patch }`: only the fields a patch carries are replaced. */
  function MergeJournal(base: Journal, patch: Journal): Journal {
    Journal(
      Override(base.sourceHead, patch.sourceHead),
      Override(base.sourceBranch, patch.sourceBranch),
      Override(base.destinationHead, patch.destinationHead),
      Override(base.destinationBranch, patch.destinationBranch),
      Override(base.sourceStashRef, patch.sourceStashRef),
      Override(base.destinationStashRef, patch.destinationStashRef),
      base.destinationStashApplied || patch.destinationStashApplied,
      base.sourceDetached || patch.sourceDetached,
      base.destinationCreated || patch.destinationCreated,
      Override(base.sourceStashMarker, patch.sourceStashMarker),
      Override(base.destinationStashMarker, patch.destinationStashMarker))
  }

  function AddWarning(warnings: seq<string>, warning: Option<string>): seq<string> {
    if warning.Some? && warning.value !in warnings then warnings + [warning.value] else warnings
  }

  function NewRow(request: Request): Row {
    Row(request.sourceThread, None, None, request, Running, Preflight, 1, None, [], EMPTY_JOURNAL)
  }

  function AdvanceRow(row: Row, step: Step, patch: Change): Result<Row, ErrorCode> {
    if !row.status.Running? then Ok(row)
    else if StepIndex(step) < StepIndex(row.step) || StepIndex(step) > StepIndex(row.step) + 1 then Err(Conflict)
    else Ok(row.(targetThread := Override(row.targetThread, patch.targetThread),
                 status := if step.AwaitClientTransfer? then AwaitingClient else Running,
                 step := step,
                 revision := row.revision + 1,
                 warnings := AddWarning(row.warnings, patch.warning),
                 journal := MergeJournal(row.journal, patch.journal)))
  }

  function CheckpointRow(row: Row, patch: Journal): Row {
    if !row.status.Running? then row
    else row.(journal := MergeJournal(row.journal, patch), revision := row.revision + 1)
  }

  function FailRow(row: Row, code: ErrorCode, rollbackFailed: bool): Row {
    if row.status.Completed? then row
    else row.(status := if rollbackFailed then RollbackFailed else Failed,
              error := Some(if rollbackFailed then RollbackIncomplete else code),
              revision := row.revision + 1)
  }

  function WarnRow(row: Row, warning: string): Row {
    if warning in row.warnings then row
    else row.(warnings := row.warnings + [warning], revision := row.revision + 1)
  }

  // ----- the statements as calls on the whole store -----

  datatype Call =
    | Create(id: string, request: Request)
    | Advance(id: string, step: Step, patch: Change)
    | Checkpoint(id: string, journal: Journal)
    | RecordBinding(id: string, binding: string)
    | CompleteTransfer(id: string, expectedRevision: nat)
    | Fail(id: string, code: ErrorCode, rollbackFailed: bool)
    | AppendWarning(id: string, warning: string)
    | ClearJournal(id: string)

  predicate Competes(row: Row, thread: string) { row.sourceThread == thread && Active(row.status) }

  function CreateIn(s: Store, id: string, request: Request): Result<Store, ErrorCode> {
    if id in s.rows then
      if s.rows[id].request != request || s.rows[id].sourceThread != request.sourceThread then Err(Conflict) else Ok(s)
    else if request.sourceThread !in s.threads then Err(ThreadNotFound)
    else if exists other <- s.rows :: Competes(s.rows[other], request.sourceThread) then Err(HandoffInProgress)
    else Ok(s.(rows := s.rows[id := NewRow(request)]))
  }

  /** The row part of a completion. */
  function CompleteRow(row: Row, expectedRevision: nat): Result<Row, ErrorCode> {
    if row.status.Completed? then Ok(row)
    else if !row.status.AwaitingClient? || row.targetThread.None? then Err(ClientTransferRequired)
    else if row.revision != expectedRevision then Err(Conflict)
    else Ok(row.(status := Completed, step := Complete, revision := row.revision + 2))
  }

  function CompleteIn(s: Store, id: string, expectedRevision: nat): Result<Store, ErrorCode> {
    if id !in s.rows then Err(Conflict)
    else
      var row := s.rows[id];
      match CompleteRow(row, expectedRevision)
      case Err(e) => Err(e)
      case Ok(completed) =>
        if row.status.Completed? then Ok(s)
        else
          var archived := if row.sourceThread in s.threads && s.threads[row.sourceThread].Listed?
                          then s.threads[row.sourceThread := Archived] else s.threads;
          if row.targetThread.value !in archived || !archived[row.targetThread.value].Hidden? then Err(Conflict)
          else Ok(Store(s.rows[id := completed], archived[row.targetThread.value := Listed]))
  }

  function Execute(s: Store, call: Call): Result<Store, ErrorCode> {
    match call
    case Create(id, request) => CreateIn(s, id, request)
    case CompleteTransfer(id, expected) => CompleteIn(s, id, expected)
    case Fail(id, code, rollbackFailed) =>
      if id in s.rows then Ok(s.(rows := s.rows[id := FailRow(s.rows[id], code, rollbackFailed)])) else Ok(s)
    case ClearJournal(id) =>
      if id in s.rows then Ok(s.(rows := s.rows[id := s.rows[id].(journal := EMPTY_JOURNAL)])) else Ok(s)
    case Advance(id, step, patch) =>
      if id !in s.rows then Err(Conflict)
      else (match AdvanceRow(s.rows[id], step, patch)
            case Ok(row) => Ok(s.(rows := s.rows[id := row]))
            case Err(e) => Err(e))
    case Checkpoint(id, journal) =>
      if id !in s.rows then Err(Conflict) else Ok(s.(rows := s.rows[id := CheckpointRow(s.rows[id], journal)]))
    case AppendWarning(id, warning) =>
      if id !in s.rows then Err(Conflict) else Ok(s.(rows := s.rows[id := WarnRow(s.rows[id], warning)]))
    case RecordBinding(id, binding) =>
      if id !in s.rows then Err(Conflict)
      else if s.rows[id].targetBinding == None then Ok(s.(rows := s.rows[id := s.rows[id].(targetBinding := Some(binding))]))
      else if s.rows[id].targetBinding == Some(binding) then Ok(s)
      else Err(Conflict)
  }

  /** A call that throws leaves the store as it was. */
  function After(s: Store, call: Call): Store {
    match Execute(s, call) case Ok(s') => s' case Err(_) => s
  }

  function RunCalls(s: Store, calls: seq<Call>): Store
    decreases |calls|
  {
    if calls == [] then s else RunCalls(After(s, calls[0]), calls[1..])
  }

  // ----- what every call keeps -----

  ghost predicate OneActivePerThread(s: Store) {
    forall a, b :: a in s.rows && b in s.rows && Active(s.rows[a].status) && Competes(s.rows[b], s.rows[a].sourceThread) ==> a == b
  }

  /** A row is where its status says it is. */
  ghost predicate RowSound(row: Row) {
    && row.sourceThread == row.request.sourceThread
    && (row.status.AwaitingClient? ==> row.step.AwaitClientTransfer?)
    && (row.status.Completed? ==> row.step.Complete? && row.targetThread.Some?)
    && (row.status.Running? ==> StepIndex(row.step) < StepIndex(AwaitClientTransfer))
  }

  ghost predicate Sound(s: Store) {
    OneActivePerThread(s) && forall id :: id in s.rows ==> RowSound(s.rows[id])
  }

  /** How one row may change over a run. */
  ghost predicate Later(before: Row, after: Row) {
    && before.request == after.request && before.sourceThread == after.sourceThread
    && before.revision <= after.revision
    && StepIndex(before.step) <= StepIndex(after.step)
    && StepIndex(after.step) - StepIndex(before.step) <= after.revision - before.revision
    && (before.status.Completed? ==> after.status.Completed? && after.step.Complete? && after.targetThread == before.targetThread)
    && (!Active(before.status) ==> !Active(after.status))
    && (before.status.AwaitingClient? ==> !after.status.Running?)
    && (before.status.Failed? || before.status.RollbackFailed? ==> !after.status.Completed?)
  }

  /** The row a call writes under its own id, when that id already has one. */
  function Rewritten(s: Store, call: Call): Row
    requires call.id in s.rows
  {
    if call.id in After(s, call).rows then After(s, call).rows[call.id] else s.rows[call.id]
  }

  lemma CallRewritesOneRow(s: Store, call: Call)
    requires call.id in s.rows
    ensures After(s, call).rows == s.rows[call.id := Rewritten(s, call)]
  {
    assert s.rows == s.rows[call.id := s.rows[call.id]];
  }

  lemma RewrittenRowIsLater(s: Store, call: Call)
    requires call.id in s.rows && RowSound(s.rows[call.id])
    ensures RowSound(Rewritten(s, call)) && Later(s.rows[call.id], Rewritten(s, call))
  {
    var row := s.rows[call.id];
    match call {
      case Advance(id, step, patch) =>
        assert Rewritten(s, call) == match AdvanceRow(row, step, patch) case Ok(r) => r case Err(_) => row;
      case CompleteTransfer(id, expected) =>
        assert Rewritten(s, call) in {row, row.(status := Completed, step := Complete, revision := row.revision + 2)};
      case Create(_, _) => assert Rewritten(s, call) == row;
      case Checkpoint(_, journal) => assert Rewritten(s, call) == CheckpointRow(row, journal);
      case RecordBinding(_, _) => assert Later(row, Rewritten(s, call));
      case Fail(_, code, failed) => assert Rewritten(s, call) == FailRow(row, code, failed);
      case AppendWarning(_, warning) => assert Rewritten(s, call) == WarnRow(row, warning);
      case ClearJournal(_) =>
    }
  }

  lemma CallKeepsSound(s: Store, call: Call)
    requires Sound(s)
    ensures Sound(After(s, call))
    ensures forall id :: id in s.rows ==> id in After(s, call).rows && Later(s.rows[id], After(s, call).rows[id])
  {
    if call.id in s.rows {
      CallRewritesOneRow(s, call);
      RewrittenRowIsLater(s, call);
    } else {
      assert After(s, call).rows == s.rows || (call.Create? && CreateIn(s, call.id, call.request).Ok?);
    }
  }

  /** In every run of repository calls, from any sound store: a source thread has at most one active
      operation, `Completed` is absorbing, a failed operation is never active or completed again, and
      no row's step or revision ever goes back. */
  lemma {:induction false} RunKeepsSound(s: Store, calls: seq<Call>)
    requires Sound(s)
    ensures Sound(RunCalls(s, calls))
    ensures forall id :: id in s.rows ==> id in RunCalls(s, calls).rows && Later(s.rows[id], RunCalls(s, calls).rows[id])
    decreases |calls|
  {
    if calls != [] {
      CallKeepsSound(s, calls[0]);
      RunKeepsSound(After(s, calls[0]), calls[1..]);
    }
  }

  /** How far one call can take a row. */
  lemma CallTakesOneStep(s: Store, call: Call, id: string)
    requires Sound(s) && id in s.rows
    ensures id in After(s, call).rows
    ensures var before, after := StepIndex(s.rows[id].step), StepIndex(After(s, call).rows[id].step);
            before <= after && (after <= before + 1 || before == StepIndex(AwaitClientTransfer))
  {
    CallKeepsSound(s, call);
    if call.id in s.rows {
      CallRewritesOneRow(s, call);
    }
  }

  /** No run of calls, refused ones included, takes an operation past a step it has not stood at: up to the hand-over
      to the client it stands at each step in turn. */
  lemma {:induction false} EveryStepIsTaken(s: Store, calls: seq<Call>, id: string, k: nat) returns (n: nat)
    requires Sound(s) && id in s.rows && id in RunCalls(s, calls).rows
    requires StepIndex(s.rows[id].step) <= k <= StepIndex(RunCalls(s, calls).rows[id].step) && k <= StepIndex(AwaitClientTransfer)
    ensures n <= |calls| && id in RunCalls(s, calls[..n]).rows && StepIndex(RunCalls(s, calls[..n]).rows[id].step) == k
    decreases |calls|
  {
    if StepIndex(s.rows[id].step) == k {
      n := 0;
      assert calls[..0] == [];
    } else {
      CallKeepsSound(s, calls[0]);
      CallTakesOneStep(s, calls[0], id);
      var m := EveryStepIsTaken(After(s, calls[0]), calls[1..], id, k);
      n := m + 1;
      assert calls[..n][0] == calls[0] && calls[..n][1..] == calls[1..][..m];
    }
  }

  /** Completion is the one call that lists the forked target, and it archives a listed source in the
      same transaction; a completion that throws changes no thread at all. */
  lemma CompletionSwapsVisibility(s: Store, id: string, expected: nat)
    requires Sound(s) && id in s.rows && s.rows[id].status.AwaitingClient?
    ensures CompleteIn(s, id, expected).Ok? <==>
              && s.rows[id].revision == expected
              && s.rows[id].targetThread.Some?
              && s.rows[id].targetThread.value in s.threads && s.threads[s.rows[id].targetThread.value].Hidden?
    ensures CompleteIn(s, id, expected).Ok? ==>
              var next := CompleteIn(s, id, expected).value;
              var row := s.rows[id];
              && next.rows[id].status.Completed? && next.rows[id].revision == expected + 2
              && next.threads[row.targetThread.value].Listed?
              && (row.sourceThread in s.threads && s.threads[row.sourceThread].Listed? ==> next.threads[row.sourceThread].Archived?)
              && forall t :: t in s.threads && t != row.sourceThread && t != row.targetThread.value ==> next.threads[t] == s.threads[t]
  {
  }

  /** Visibility of a thread changes in no call but a completion. */
  lemma OnlyCompletionTouchesThreads(s: Store, call: Call)
    ensures After(s, call).threads != s.threads ==>
              && call.CompleteTransfer?
              && call.id in s.rows && s.rows[call.id].status.AwaitingClient?
              && After(s, call).rows[call.id].status.Completed?
  {
  }

  /** The rows of one database, updated in place. */
  class HandoffRepository {
    var rows: map<string, Row>
    var threads: map<string, Visibility>

    function Contents(): Store reads this { Store(rows, threads) }

    constructor (threads: map<string, Visibility>)
      ensures Contents() == Store(map[], threads) && Sound(Contents())
    {
      this.rows := map[];
      this.threads := threads;
    }

    method Create(id: string, request: Request) returns (r: Result<Row, ErrorCode>)
      modifies this
      ensures Contents() == After(old(Contents()), Call.Create(id, request))
      ensures r.Ok? <==> CreateIn(old(Contents()), id, request).Ok?
      ensures r.Err? ==> CreateIn(old(Contents()), id, request) == Err(r.error)
      ensures r.Ok? ==> id in rows && r.value == rows[id]
      ensures old(Sound(Contents())) ==> Sound(Contents())
    {
      CallKeepsSoundIf(Contents(), Call.Create(id, request));
      if id in rows {
        var existing := rows[id];
        if existing.request != request || existing.sourceThread != request.sourceThread { return Err(Conflict); }
        return Ok(existing);
      }
      if request.sourceThread !in threads { return Err(ThreadNotFound); }
      if exists other <- rows :: Competes(rows[other], request.sourceThread) { return Err(HandoffInProgress); }
      rows := rows[id := NewRow(request)];
      return Ok(rows[id]);
    }

    method Advance(id: string, step: Step, patch: Change) returns (r: Result<Row, ErrorCode>)
      modifies this`rows
      ensures Contents() == After(old(Contents()), Call.Advance(id, step, patch))
      ensures r.Ok? <==> Execute(old(Contents()), Call.Advance(id, step, patch)).Ok?
      ensures r.Err? ==> Execute(old(Contents()), Call.Advance(id, step, patch)) == Err(r.error)
      ensures r.Ok? ==> id in rows && r.value == rows[id]
      ensures old(Sound(Contents())) ==> Sound(Contents())
    {
      hide Sound;
      CallKeepsSoundIf(Contents(), Call.Advance(id, step, patch));
      if id !in rows { return Err(Conflict); }
      var current := rows[id];
      if !current.status.Running? {
        assert rows[id := current] == rows;
        return Ok(current);
      }
      var currentIndex, nextIndex := StepIndex(current.step), StepIndex(step);
      if nextIndex < currentIndex || nextIndex > currentIndex + 1 { return Err(Conflict); }
      var warnings := current.warnings;
      if patch.warning.Some? && patch.warning.value !in warnings { warnings := warnings + [patch.warning.value]; }
      var journal := MergeJournal(current.journal, patch.journal);
      var status := if step.AwaitClientTransfer? then AwaitingClient else Running;
      rows := rows[id := current.(targetThread := Override(current.targetThread, patch.targetThread), status := status,
                                  step := step, revision := current.revision + 1, warnings := warnings, journal := journal)];
      return Ok(rows[id]);
    }

    method CompleteAfterClientTransfer(id: string, expectedRevision: nat) returns (r: Result<Row, ErrorCode>)
      modifies this
      ensures Contents() == After(old(Contents()), CompleteTransfer(id, expectedRevision))
      ensures r.Ok? <==> CompleteIn(old(Contents()), id, expectedRevision).Ok?
      ensures r.Err? ==> CompleteIn(old(Contents()), id, expectedRevision) == Err(r.error)
      ensures r.Ok? ==> id in rows && r.value == rows[id] && rows[id].status.Completed?
      ensures old(Sound(Contents())) ==> Sound(Contents())
    {
      hide Sound;
      CallKeepsSoundIf(Contents(), CompleteTransfer(id, expectedRevision));
      if id !in rows { return Err(Conflict); }
      var current := rows[id];
      if current.status.Completed? { return Ok(current); }
      if !current.status.AwaitingClient? || current.targetThread.None? { return Err(ClientTransferRequired); }
      if current.revision != expectedRevision { return Err(Conflict); }
      var target := current.targetThread.value;
      var before, threadsBefore := rows, threads;
      rows := rows[id := current.(step := ArchiveSource, revision := current.revision + 1)];
      if current.sourceThread in threads && threads[current.sourceThread].Listed? {
        threads := threads[current.sourceThread := Archived];
      }
      if target !in threads || !threads[target].Hidden? {
        rows, threads := before, threadsBefore;
        return Err(Conflict);
      }
      threads := threads[target := Listed];
      rows := rows[id := rows[id].(status := Completed, step := Complete, revision := rows[id].revision + 1)];
      return Ok(rows[id]);
    }

    method Fail(id: string, code: ErrorCode, rollbackFailed: bool)
      modifies this`rows
      ensures Contents() == After(old(Contents()), Call.Fail(id, code, rollbackFailed))
      ensures old(Sound(Contents())) ==> Sound(Contents())
    {
      CallKeepsSoundIf(Contents(), Call.Fail(id, code, rollbackFailed));
      if id !in rows || rows[id].status.Completed? {
        assert id in rows ==> rows[id := rows[id]] == rows;
        return;
      }
      rows := rows[id := FailRow(rows[id], code, rollbackFailed)];
    }
  }

  lemma CallKeepsSoundIf(s: Store, call: Call)
    ensures Sound(s) ==> Sound(After(s, call))
  {
    if Sound(s) { CallKeepsSound(s, call); }
  }
}
