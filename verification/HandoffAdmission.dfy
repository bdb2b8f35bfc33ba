/** Concurrent and repeated `start` calls.  Between two awaits a call runs alone; calls, repository
    writes and restarts of the process interleave in any order. */
module HandoffAdmission {
  import opened Options
  import opened HandoffRepository

  /** What an owned start is doing: waiting for its source context, holding its row before the Git
      transfer, past the start of that transfer, or done and about to leave `inFlight`. */
  datatype Phase = Resolving | Owning | Moving | Leaving

  datatype Task = Task(id: string, request: Request, phase: Phase)

  /** `inFlight` maps an operation id to its task.  `transfers` counts, over all lives of the process,
      how often the Git transfer of an operation was entered. */
  datatype State = State(inFlight: map<string, nat>, tasks: seq<Task>, store: Store, transfers: map<string, nat>)

  datatype Event =
    | Start(id: string, request: Request)
    | SourceResolved(task: nat, found: bool)
    | EnterTransfer(task: nat)
    | Finish(task: nat)
    | Settle(task: nat)
    | Write(call: Call)
    | RestartProcess

  function Entered(s: State, id: string): nat { if id in s.transfers then s.transfers[id] else 0 }

  function SetPhase(s: State, task: nat, phase: Phase): State
    requires task < |s.tasks|
  {
    s.(tasks := s.tasks[task := s.tasks[task].(phase := phase)])
  }

  predicate Enabled(s: State, e: Event) {
    match e
    case Start(_, _) => true
    case SourceResolved(task, _) => task < |s.tasks| && s.tasks[task].phase.Resolving?
    case EnterTransfer(task) => task < |s.tasks| && s.tasks[task].phase.Owning?
    case Finish(task) => task < |s.tasks| && (s.tasks[task].phase.Owning? || s.tasks[task].phase.Moving?)
    case Settle(task) => task < |s.tasks| && s.tasks[task].phase.Leaving?
    case Write(call) => !call.Create?
    case RestartProcess => true
  }

  /** A start joins the task already in flight for its id, replays a persisted row, or becomes the owner. */
  function StartStep(s: State, id: string, request: Request): State {
    if id in s.inFlight then s
    else s.(inFlight := s.inFlight[id := |s.tasks|],
            tasks := s.tasks + [Task(id, request, if id in s.store.rows then Leaving else Resolving)])
  }

  function Next(s: State, e: Event): State
    requires Enabled(s, e)
  {
    match e
    case Start(id, request) => StartStep(s, id, request)
    case SourceResolved(task, found) =>
      if !found then SetPhase(s, task, Leaving)
      else (match CreateIn(s.store, s.tasks[task].id, s.tasks[task].request)
            case Ok(store) => SetPhase(s, task, Owning).(store := store)
            case Err(_) => SetPhase(s, task, Leaving))
    case EnterTransfer(task) =>
      SetPhase(s, task, Moving).(transfers := s.transfers[s.tasks[task].id := Entered(s, s.tasks[task].id) + 1])
    case Finish(task) => SetPhase(s, task, Leaving)
    case Settle(task) =>
      var id := s.tasks[task].id;
      if id in s.inFlight && s.inFlight[id] == task then s.(inFlight := s.inFlight - {id}) else s
    case Write(call) => s.(store := After(s.store, call))
    case RestartProcess => s.(inFlight := map[], tasks := [])
  }

  ghost predicate InFlightNamesItsTask(s: State) {
    && (forall id :: id in s.inFlight ==> s.inFlight[id] < |s.tasks| && s.tasks[s.inFlight[id]].id == id)
    && (forall i :: 0 <= i < |s.tasks| && !s.tasks[i].phase.Leaving? ==> s.tasks[i].id in s.inFlight && s.inFlight[s.tasks[i].id] == i)
  }

  ghost predicate TaskSound(s: State, t: Task) {
    match t.phase
    case Resolving => t.id !in s.store.rows
    case Owning => t.id in s.store.rows && Entered(s, t.id) == 0
    case Moving => t.id in s.store.rows
    case Leaving => true
  }

  ghost predicate Inv(s: State) {
    && Sound(s.store)
    && InFlightNamesItsTask(s)
    && (forall i :: 0 <= i < |s.tasks| ==> TaskSound(s, s.tasks[i]))
    && (forall id :: id in s.transfers ==> s.transfers[id] <= 1 && (s.transfers[id] == 1 ==> id in s.store.rows))
  }

  lemma RowsOnlyGrow(s: Store, call: Call)
    ensures forall id :: id in s.rows ==> id in After(s, call).rows
    ensures !call.Create? ==> After(s, call).rows.Keys == s.rows.Keys
  {
  }

  lemma NextKeepsInv(s: State, e: Event)
    requires Inv(s) && Enabled(s, e)
    ensures Inv(Next(s, e))
  {
    match e {
      case Start(id, request) => StartKeepsInv(s, id, request);
      case SourceResolved(task, found) => ResolvedKeepsInv(s, task, found);
      case EnterTransfer(task) => EnterKeepsInv(s, task);
      case Finish(task) => PhaseKeepsInv(s, task);
      case Settle(task) =>
      case Write(call) =>
        CallKeepsSound(s.store, call);
        RowsOnlyGrow(s.store, call);
      case RestartProcess =>
    }
  }

  lemma StartKeepsInv(s: State, id: string, request: Request)
    requires Inv(s)
    ensures Inv(StartStep(s, id, request))
  {
    var s' := StartStep(s, id, request);
    if id !in s.inFlight {
      forall i | 0 <= i < |s'.tasks| && !s'.tasks[i].phase.Leaving?
        ensures s'.tasks[i].id in s'.inFlight && s'.inFlight[s'.tasks[i].id] == i
      {
        if i < |s.tasks| { assert s'.tasks[i] == s.tasks[i]; }
      }
    }
  }

  lemma PhaseKeepsInv(s: State, task: nat)
    requires Inv(s) && task < |s.tasks|
    ensures Inv(SetPhase(s, task, Leaving))
  {
  }

  lemma ResolvedKeepsInv(s: State, task: nat, found: bool)
    requires Inv(s) && Enabled(s, SourceResolved(task, found))
    ensures Inv(Next(s, SourceResolved(task, found)))
  {
    var t := s.tasks[task];
    var created := CreateIn(s.store, t.id, t.request);
    if found && created.Ok? {
      CallKeepsSound(s.store, Create(t.id, t.request));
      var s' := Next(s, SourceResolved(task, found));
      assert s'.store == After(s.store, Create(t.id, t.request));
      assert s'.store.rows == s.store.rows[t.id := NewRow(t.request)];
      forall i | 0 <= i < |s'.tasks| ensures TaskSound(s', s'.tasks[i]) {
        if i != task && s.tasks[i].phase.Resolving? {
          assert s.tasks[i].id != t.id by { assert s.inFlight[s.tasks[i].id] == i && s.inFlight[t.id] == task; }
        }
      }
    } else {
      PhaseKeepsInv(s, task);
    }
  }

  lemma EnterKeepsInv(s: State, task: nat)
    requires Inv(s) && Enabled(s, EnterTransfer(task))
    ensures Inv(Next(s, EnterTransfer(task)))
  {
    var s' := Next(s, EnterTransfer(task));
    forall i | 0 <= i < |s'.tasks| ensures TaskSound(s', s'.tasks[i]) {
      if i != task && s.tasks[i].phase.Owning? {
        assert s.tasks[i].id != s.tasks[task].id by { assert s.inFlight[s.tasks[i].id] == i && s.inFlight[s.tasks[task].id] == task; }
      }
    }
  }

  /** `events` is a run from `s`: each event is enabled where it happens. */
  ghost predicate Possible(s: State, events: seq<Event>)
    decreases |events|
  {
    events != [] ==> Enabled(s, events[0]) && Possible(Next(s, events[0]), events[1..])
  }

  function RunAll(s: State, events: seq<Event>): State
    requires Possible(s, events)
    decreases |events|
  {
    if events == [] then s else RunAll(Next(s, events[0]), events[1..])
  }

  lemma {:induction false} RunKeepsInv(s: State, events: seq<Event>)
    requires Inv(s) && Possible(s, events)
    ensures Inv(RunAll(s, events))
    decreases |events|
  {
    if events != [] {
      NextKeepsInv(s, events[0]);
      RunKeepsInv(Next(s, events[0]), events[1..]);
    }
  }

  /** The process has just started on a store of earlier operations, none of which it has transferred. */
  function Initial(store: Store): State { State(map[], [], store, map[]) }

  /** Main result: over every interleaving of start calls, repository writes and restarts, the Git
      transfer of one operation id is entered at most once - never, if it had a row from before - and no source thread
      ever has two active operations. */
  lemma TransferAtMostOnce(store: Store, events: seq<Event>, id: string)
    requires Sound(store) && Possible(Initial(store), events)
    ensures Entered(RunAll(Initial(store), events), id) <= if id in store.rows then 0 else 1
    ensures OneActivePerThread(RunAll(Initial(store), events).store)
  {
    RunKeepsInv(Initial(store), events);
    if id in store.rows { SpentRun(Initial(store), events, id); }
  }

  /** Once an operation has a row and no task, no start call for it - now, later, or after a restart - can reach the
      transfer through a new task. */
  lemma PersistedIsOnlyReplayed(store: Store, before: seq<Event>, after: seq<Event>, id: string)
    requires Sound(store) && Possible(Initial(store), before)
    requires var s := RunAll(Initial(store), before);
             Possible(s, after) && id in s.store.rows && id !in s.inFlight
    ensures var s := RunAll(Initial(store), before);
            Entered(RunAll(s, after), id) == Entered(s, id)
  {
    RunKeepsInv(Initial(store), before);
    var s := RunAll(Initial(store), before);
    OnlyLeavingTasks(s, id);
    SpentRun(s, after, id);
  }

  ghost predicate Spent(s: State, id: string) {
    id in s.store.rows && forall i :: 0 <= i < |s.tasks| && s.tasks[i].id == id ==> s.tasks[i].phase.Leaving?
  }

  lemma OnlyLeavingTasks(s: State, id: string)
    requires Inv(s) && id in s.store.rows && id !in s.inFlight
    ensures Spent(s, id)
  {
  }

  lemma SpentStep(s: State, e: Event, id: string)
    requires Inv(s) && Enabled(s, e) && Spent(s, id)
    ensures Entered(Next(s, e), id) == Entered(s, id) && Spent(Next(s, e), id)
  {
    if e.Write? { RowsOnlyGrow(s.store, e.call); }
    if e.SourceResolved? { RowsOnlyGrow(s.store, Create(s.tasks[e.task].id, s.tasks[e.task].request)); }
  }

  lemma {:induction false} SpentRun(s: State, events: seq<Event>, id: string)
    requires Inv(s) && Possible(s, events) && Spent(s, id)
    ensures Entered(RunAll(s, events), id) == Entered(s, id)
    decreases |events|
  {
    if events != [] {
      NextKeepsInv(s, events[0]);
      SpentStep(s, events[0], id);
      SpentRun(Next(s, events[0]), events[1..], id);
    }
  }
}
