/** One handoff from its request to the point where the client takes over, its own error path, and
    startup recovery after a crash.  Forking, binding, stopping and workspace preparation are ports
    that succeed or fail. */
module HandoffService {
  import opened Options
  import opened Faults
  import opened Git
  import opened HandoffRepository
  import opened GitHandoffCoordinator

  datatype Input = Input(direction: Direction, defaultBranch: Option<Branch>, markerId: nat,
                         createdForOperation: bool, forkedThread: string)

  function Port(r: Run): Run {
    if !r.live then r
    else
      var (w1, ok) := Query(r.w);
      if ok then r.(w := w1) else r.(w := w1, thrown := Some(HistoryUnsupported))
  }

  function Mark(r: Run, step: Step): Run { Save(r, step, NO_CHANGE) }

  /** Preflight, stop the source, close its terminal, check that it can be forked, prepare the destination. */
  function Admit(r: Run, created: bool): Run {
    var stopped := Port(Port(Port(Mark(Port(r), StopSource))));
    var prepared := Port(Mark(stopped, PrepareDestination));
    if created then Save(prepared, PrepareDestination, NO_CHANGE.(journal := EMPTY_JOURNAL.(destinationCreated := true))) else prepared
  }

  /** `checkpointJournal`: the recovery intent becomes durable. */
  function CheckpointJournal(r: Run, journal: Journal): Run {
    if !r.live then r
    else
      var (w1, ok) := Query(r.w);
      if ok then r.(w := w1.(row := CheckpointRow(w1.row, journal)), journal := journal) else r.(w := w1, thrown := Some(HistoryUnsupported))
  }

  function SaveWarnings(r: Run, warnings: seq<string>): Run
    decreases |warnings|
  {
    if warnings == [] then r
    else SaveWarnings(Save(r, ApplySourceChanges, NO_CHANGE.(warning := Some(warnings[0]))), warnings[1..])
  }

  /** After the Git transfer: fork the conversation, hand over the core state, wait for the client. */
  function HandOver(r: Run, thread: string): Run {
    var forked := Port(Mark(SaveWarnings(r, r.warnings), ForkConversation));
    Mark(Port(Save(forked, TransferCoreState, NO_CHANGE.(targetThread := Some(thread)))), AwaitClientTransfer)
  }

  /** How far the body of `startOwned` came: the plan once Git may have been touched, and whether the
      transfer returned, so that its own journal is at hand. */
  datatype Body = Body(run: Run, plan: Option<Plan>, transferred: Option<Journal>)

  function StartBody(w: World, input: Input): Body {
    var admitted := Admit(Run(w, EMPTY_JOURNAL, [], None, false), input.createdForOperation);
    if !admitted.live then Body(admitted, None, None)
    else
      var (w1, inspected) := Inspect(admitted.w, input.direction, input.defaultBranch);
      match inspected
      case Err(code) => Body(admitted.(w := w1, thrown := Some(code)), None, None)
      case Ok(plan) =>
        MoveGit(CheckpointJournal(admitted.(w := w1), CreateJournal(plan, input.markerId)), plan, input.forkedThread)
  }

  function MoveGit(ready: Run, plan: Plan, thread: string): Body {
    if !ready.live then Body(ready, None, None)
    else
      var moved := Transfer(plan, ready);
      if !moved.live then Body(moved, Some(plan), None)
      else Body(HandOver(moved, thread), Some(plan), Some(moved.journal))
  }

  /** `returned` is false when the call throws; `report` is the rollback, if one was run. */
  datatype Started = Started(w: World, returned: bool, rejected: bool, plan: Option<Plan>, report: Option<Report>)

  function FailOperation(w: World, code: ErrorCode, rollbackFailed: bool): World {
    var (w1, ok) := Query(w);
    if ok then w1.(row := FailRow(w1.row, code, rollbackFailed)) else w1
  }

  /** The code recorded for an error: only those of a handoff are kept. */
  function Recorded(thrown: Option<ErrorCode>): ErrorCode {
    match thrown
    case Some(code) => if code.Conflict? || code.ThreadNotFound? then HistoryUnsupported else code
    case None => HistoryUnsupported
  }

  /** The error path: undo the fork, the Git mutations and the preparation, then record the failure. */
  function Unwind(body: Body): Started {
    var (w1, forkGone) := Query(body.run.w);
    UnwindRest(body, w1, forkGone, UnwindGit(body, w1))
  }

  function UnwindGit(body: Body, w: World): Option<Report> {
    if body.plan.None? then None
    else Some(Rollback(body.plan.value, w, if body.transferred.Some? then body.transferred.value else w.row.journal))
  }

  function UnwindRest(body: Body, w: World, forkGone: bool, report: Option<Report>): Started {
    var (w1, unprepared) := Query(if report.Some? then report.value.w else w);
    var rollbackFailed := !forkGone || (report.Some? && !report.value.ok) || !unprepared;
    Started(FailOperation(w1, Recorded(body.run.thrown), rollbackFailed), false, body.run.rejected, body.plan, report)
  }

  function StartOwned(w: World, input: Input): Started {
    var body := StartBody(w, input);
    if body.run.live then Started(body.run.w, true, body.run.rejected, body.plan, None) else Unwind(body)
  }

  /** Startup recovery of one operation. */
  function Recover(w: World, direction: Direction): World {
    if !w.row.status.Running? then w
    else
      var (w1, found) := Query(w);
      if !found then FailOperation(w1, RollbackIncomplete, true)
      else
        var (w2, gitOk) := RecoverGit(w1, direction);
        var (w3, forkGone) := Query(w2);
        if !forkGone then FailOperation(w3, RollbackIncomplete, true)
        else
          var (w4, unprepared) := Query(w3);
          var failed := !gitOk || !unprepared;
          FailOperation(w4, if failed then RollbackIncomplete else HandoffInProgress, failed)
  }

  function RecoverGit(w: World, direction: Direction): (World, bool) {
    if w.row.journal.sourceHead.None? then (w, true)
    else match PlanOf(direction, w.row.journal)
      case None => (w, false)
      case Some(plan) =>
        var report := Rollback(plan, w, w.row.journal);
        (report.w, report.ok)
  }

  /** The process is started again `n` times; each start recovers the operation. */
  function Restarts(w: World, direction: Direction, n: nat): World {
    if n == 0 then w
    else
      var before := Restarts(w, direction, n - 1);
      Recover(before.(env := Restart(before.env)), direction)
  }

  // ----- after the client has taken over -----

  const CLEANUP_PENDING := "handoff completed, cleanup to be retried"

  function Warned(w: World, warning: string): (World, bool) {
    var (w1, ok) := Query(w);
    (if ok then w1.(row := WarnRow(w1.row, warning)) else w1, ok)
  }

  function AppendWarnings(w: World, warnings: seq<string>): (World, bool)
    decreases |warnings|
  {
    if warnings == [] then (w, true)
    else
      var (w1, ok) := Warned(w, warnings[0]);
      if ok then AppendWarnings(w1, warnings[1..]) else (w1, false)
  }

  /** Drop the stashes, release the workspace and be allowed to forget the journal. */
  function Tidy(w: World, journal: Journal): (World, bool) {
    var (w1, found) := Query(w);
    if !found then (w1, false)
    else
      var (w2, warnings) := Finalize(w1, journal);
      var (w3, noted) := AppendWarnings(w2, warnings);
      if !noted then (w3, false)
      else
        var (w4, released) := Query(w3);
        if !released then (w4, false) else Query(w4)
  }

  /** Any failure to tidy up leaves the journal and a warning. */
  function CleanUp(w: World, journal: Journal): (World, bool) {
    var (w1, tidied) := Tidy(w, journal);
    if tidied then (w1.(row := w1.row.(journal := EMPTY_JOURNAL)), true) else Warned(w1, CLEANUP_PENDING)
  }

  function Acknowledge(w: World, revision: nat): (World, bool) {
    if w.row.status.Completed? then CleanUp(w, w.row.journal)
    else
      var (w1, ok) := Query(w);
      if !ok then (w1, false)
      else match CompleteRow(w1.row, revision)
        case Err(_) => (w1, false)
        case Ok(row) => CleanUp(w1.(row := row), w.row.journal)
  }
}
