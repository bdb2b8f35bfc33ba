/** One tool batch, without its scheduling: what each call of an assistant message comes to. */
module ToolBatch {
  import opened Options
  import opened AgentEvents

  datatype ToolOutput = ToolOutput(content: string, terminate: bool)

  /** How a tool, or the agent, wants a batch run.  `ByArguments` decides once the arguments are known. */
  datatype Mode = Parallel | Sequential | ByArguments(sequential: string -> bool)

  /** `validate` stands for argument preparation and validation, which may throw. */
  datatype Tool = Tool(mode: Mode,
                       validate: string -> Result<string, string>,
                       execute: (string, string) -> Result<ToolOutput, string>)

  datatype Before = Allow | Block(reason: string) | BeforeThrows(message: string)

  datatype After = Keep | Patch(content: Option<string>, terminate: Option<bool>, isError: Option<bool>) | AfterThrows(message: string)

  datatype Hooks = Hooks(mode: Mode,
                         before: Option<(ToolCall, string) -> Before>,
                         after: Option<(ToolCall, string, ToolOutput, bool) -> After>)

  datatype Preparation = Immediate(output: ToolOutput) | Prepared(tool: Tool, arguments: string)

  datatype Finalized = Finalized(call: ToolCall, output: ToolOutput, isError: bool)

  function ErrorOutput(message: string): ToolOutput { ToolOutput(message, false) }

  const BLOCKED := "Tool execution was blocked"

  /** Unknown tools, invalid arguments and blocked calls end here, with an error. */
  function Prepare(tools: map<string, Tool>, hooks: Hooks, call: ToolCall): Preparation {
    if call.name !in tools then Immediate(ErrorOutput("Tool " + call.name + " not found"))
    else
      var tool := tools[call.name];
      match tool.validate(call.arguments)
      case Err(message) => Immediate(ErrorOutput(message))
      case Ok(arguments) =>
        if hooks.before.None? then Prepared(tool, arguments)
        else match hooks.before.value(call, arguments)
          case Allow => Prepared(tool, arguments)
          case Block(reason) => Immediate(ErrorOutput(if reason == "" then BLOCKED else reason))
          case BeforeThrows(message) => Immediate(ErrorOutput(message))
  }

  /** The outcome of running a prepared call, after the `afterToolCall` hook. */
  function Finalize(hooks: Hooks, call: ToolCall, arguments: string, executed: Result<ToolOutput, string>): Finalized {
    var output := if executed.Ok? then executed.value else ErrorOutput(executed.error);
    var isError := executed.Err?;
    if hooks.after.None? then Finalized(call, output, isError)
    else match hooks.after.value(call, arguments, output, isError)
      case Keep => Finalized(call, output, isError)
      case AfterThrows(message) => Finalized(call, ErrorOutput(message), true)
      case Patch(content, terminate, error) =>
        Finalized(call,
                  ToolOutput(if content.Some? then content.value else output.content,
                             if terminate.Some? then terminate.value else output.terminate),
                  if error.Some? then error.value else isError)
  }

  function Complete(hooks: Hooks, call: ToolCall, prep: Preparation): Finalized {
    match prep
    case Immediate(output) => Finalized(call, output, true)
    case Prepared(tool, arguments) => Finalize(hooks, call, arguments, tool.execute(call.id, arguments))
  }

  function ResultMessage(f: Finalized): Message { ToolResult(f.call.id, f.call.name, f.output.content, f.isError) }

  datatype Batch = Batch(messages: seq<Message>, terminate: bool)

  function Results(finalized: seq<Finalized>): (r: seq<Message>)
    ensures |r| == |finalized|
  {
    if finalized == [] then [] else Results(finalized[..|finalized| - 1]) + [ResultMessage(finalized[|finalized| - 1])]
  }

  lemma {:induction false} ResultsAt(finalized: seq<Finalized>, i: nat)
    requires i < |finalized|
    ensures Results(finalized)[i] == ResultMessage(finalized[i])
  {
    if i < |finalized| - 1 {
      ResultsAt(finalized[..|finalized| - 1], i);
    }
  }

  predicate AllTerminate(finalized: seq<Finalized>) {
    forall i :: 0 <= i < |finalized| ==> finalized[i].output.terminate
  }

  predicate ShouldTerminate(finalized: seq<Finalized>) { |finalized| > 0 && AllTerminate(finalized) }

  /** What a batch comes to when nothing is aborted: a function of the calls alone, with no scheduling in it. */
  function Outcomes(tools: map<string, Tool>, hooks: Hooks, calls: seq<ToolCall>): (r: seq<Finalized>)
    ensures |r| == |calls|
  {
    if calls == [] then []
    else
      var last := calls[|calls| - 1];
      Outcomes(tools, hooks, calls[..|calls| - 1]) + [Complete(hooks, last, Prepare(tools, hooks, last))]
  }

  lemma {:induction false} OutcomesAt(tools: map<string, Tool>, hooks: Hooks, calls: seq<ToolCall>, i: nat)
    requires i < |calls|
    ensures Outcomes(tools, hooks, calls)[i] == Complete(hooks, calls[i], Prepare(tools, hooks, calls[i]))
  {
    if i < |calls| - 1 {
      OutcomesAt(tools, hooks, calls[..|calls| - 1], i);
    }
  }

  function BatchOf(finalized: seq<Finalized>): Batch { Batch(Results(finalized), ShouldTerminate(finalized)) }

  /** The calls that actually run, in source order. */
  function Runnable(tools: map<string, Tool>, hooks: Hooks, calls: seq<ToolCall>): seq<ToolCall> {
    if calls == [] then []
    else
      var last := calls[|calls| - 1];
      Runnable(tools, hooks, calls[..|calls| - 1]) + (if Prepare(tools, hooks, last).Prepared? then [last] else [])
  }

  lemma CompleteNamesItsCall(hooks: Hooks, call: ToolCall, prep: Preparation)
    ensures Complete(hooks, call, prep).call == call
  {
  }

  const CUT_OFF := "\" was not executed: the response hit the output token limit, so its arguments may be truncated. Re-issue the tool call with complete arguments."

  function TruncatedOutput(call: ToolCall): ToolOutput { ErrorOutput("Tool call \"" + call.name + CUT_OFF) }

  function TruncatedResults(calls: seq<ToolCall>): (r: seq<Message>)
    ensures |r| == |calls|
    ensures forall i :: 0 <= i < |r| ==> r[i] == ToolResult(calls[i].id, calls[i].name, TruncatedOutput(calls[i]).content, true)
  {
    if calls == [] then []
    else TruncatedResults(calls[..|calls| - 1]) + [ResultMessage(Finalized(calls[|calls| - 1], TruncatedOutput(calls[|calls| - 1]), true))]
  }

  lemma TruncatedGrows(calls: seq<ToolCall>, k: nat)
    requires k < |calls|
    ensures TruncatedResults(calls[..k + 1]) == TruncatedResults(calls[..k]) + [ResultMessage(Finalized(calls[k], TruncatedOutput(calls[k]), true))]
  {
    assert calls[..k + 1][..k] == calls[..k];
  }

  /** What an assistant message leads to, undisturbed: nothing when the request failed, refusals when the
      message was cut off, and otherwise the outcomes of its calls. */
  function Response(tools: map<string, Tool>, hooks: Hooks, m: Message): Batch
    requires m.Assistant?
  {
    if m.stop.Errored? || m.stop.Aborted? || m.calls == [] then Batch([], true)
    else if m.stop.Length? then Batch(TruncatedResults(m.calls), false)
    else BatchOf(Outcomes(tools, hooks, m.calls))
  }

  /** The scheduling decision that needs no arguments. */
  predicate StaticSequential(tools: map<string, Tool>, hooks: Hooks, calls: seq<ToolCall>) {
    hooks.mode.Sequential? || exists i :: 0 <= i < |calls| && calls[i].name in tools && tools[calls[i].name].mode.Sequential?
  }

  predicate WantsSequential(mode: Mode, arguments: string) {
    match mode
    case Parallel => false
    case Sequential => true
    case ByArguments(f) => f(arguments)
  }

  /** The decision that does, over the calls prepared so far. */
  predicate Wants(hooks: Hooks, prep: Preparation) {
    prep.Prepared? && (WantsSequential(hooks.mode, prep.arguments) || WantsSequential(prep.tool.mode, prep.arguments))
  }

  // ----- under abort: a batch may stop early, and a call not yet prepared may be refused -----

  datatype Entry = Entry(call: ToolCall, prep: Preparation)

  function AbortedOutput(): ToolOutput { ErrorOutput("Operation aborted") }

  ghost predicate Wanting(hooks: Hooks, entries: seq<Entry>) {
    entries != [] && (Wanting(hooks, entries[..|entries| - 1]) || Wants(hooks, entries[|entries| - 1].prep))
  }

  lemma WantingGrows(hooks: Hooks, entries: seq<Entry>, e: Entry)
    ensures Wanting(hooks, entries + [e]) <==> Wanting(hooks, entries) || Wants(hooks, e.prep)
  {
    assert (entries + [e])[..|entries|] == entries;
  }

  ghost predicate PreparedAs(tools: map<string, Tool>, hooks: Hooks, call: ToolCall, prep: Preparation, calm: bool) {
    prep == Prepare(tools, hooks, call) || (!calm && prep == Immediate(AbortedOutput()))
  }

  ghost predicate Reached(tools: map<string, Tool>, hooks: Hooks, calls: seq<ToolCall>, entries: seq<Entry>, calm: bool) {
    && |entries| <= |calls|
    && (entries != [] ==>
          var n := |entries| - 1;
          && Reached(tools, hooks, calls, entries[..n], calm)
          && entries[n].call == calls[n] && PreparedAs(tools, hooks, calls[n], entries[n].prep, calm))
  }

  lemma {:induction false} ReachedAt(tools: map<string, Tool>, hooks: Hooks, calls: seq<ToolCall>, entries: seq<Entry>, calm: bool, k: nat)
    requires Reached(tools, hooks, calls, entries, calm) && k < |entries|
    ensures k < |calls| && entries[k].call == calls[k] && PreparedAs(tools, hooks, calls[k], entries[k].prep, calm)
  {
    if k < |entries| - 1 {
      ReachedAt(tools, hooks, calls, entries[..|entries| - 1], calm, k);
    }
  }

  lemma ReachedGrows(tools: map<string, Tool>, hooks: Hooks, calls: seq<ToolCall>, entries: seq<Entry>, prep: Preparation, calm: bool)
    requires Reached(tools, hooks, calls, entries, calm) && |entries| < |calls|
    requires PreparedAs(tools, hooks, calls[|entries|], prep, calm)
    ensures Reached(tools, hooks, calls, entries + [Entry(calls[|entries|], prep)], calm)
  {
    assert (entries + [Entry(calls[|entries|], prep)])[..|entries|] == entries;
  }

  /** The finished calls are a prefix of the calls in source order, each with the outcome it would have had
      undisturbed, or, when there was an abort, refused. */
  ghost predicate Settled(tools: map<string, Tool>, hooks: Hooks, calls: seq<ToolCall>, finalized: seq<Finalized>, calm: bool) {
    && |finalized| <= |calls|
    && (finalized != [] ==>
          var n := |finalized| - 1;
          Settled(tools, hooks, calls, finalized[..n], calm) && SettledAs(tools, hooks, calls[n], finalized[n], calm))
  }

  lemma {:induction false} SettledAt(tools: map<string, Tool>, hooks: Hooks, calls: seq<ToolCall>, finalized: seq<Finalized>, calm: bool, i: nat)
    requires Settled(tools, hooks, calls, finalized, calm) && i < |finalized|
    ensures SettledAs(tools, hooks, calls[i], finalized[i], calm)
  {
    if i < |finalized| - 1 {
      SettledAt(tools, hooks, calls, finalized[..|finalized| - 1], calm, i);
    }
  }

  ghost predicate SettledAs(tools: map<string, Tool>, hooks: Hooks, call: ToolCall, f: Finalized, calm: bool) {
    || f == Complete(hooks, call, Prepare(tools, hooks, call))
    || (!calm && f == Finalized(call, AbortedOutput(), true))
  }

  lemma SettledGrows(tools: map<string, Tool>, hooks: Hooks, calls: seq<ToolCall>, finalized: seq<Finalized>, f: Finalized, calm: bool)
    requires Settled(tools, hooks, calls, finalized, calm) && |finalized| < |calls|
    requires SettledAs(tools, hooks, calls[|finalized|], f, calm)
    ensures Settled(tools, hooks, calls, finalized + [f], calm)
  {
    assert (finalized + [f])[..|finalized|] == finalized;
  }

  lemma ResultsGrow(finalized: seq<Finalized>, f: Finalized)
    ensures Results(finalized + [f]) == Results(finalized) + [ResultMessage(f)]
  {
    assert (finalized + [f])[..|finalized|] == finalized;
  }

  lemma SettledIsOutcomes(tools: map<string, Tool>, hooks: Hooks, calls: seq<ToolCall>, finalized: seq<Finalized>)
    requires Settled(tools, hooks, calls, finalized, true) && |finalized| == |calls|
    ensures finalized == Outcomes(tools, hooks, calls)
  {
    var o := Outcomes(tools, hooks, calls);
    forall i | 0 <= i < |o| ensures finalized[i] == o[i] {
      SettledAt(tools, hooks, calls, finalized, true, i);
      OutcomesAt(tools, hooks, calls, i);
    }
  }

  /** `ran` are some of the first `k` calls, in their order, all cleared to run. */
  ghost predicate Cleared(tools: map<string, Tool>, hooks: Hooks, calls: seq<ToolCall>, k: nat, ran: seq<ToolCall>) {
    && k <= |calls|
    && if k == 0 then ran == []
       else
         || Cleared(tools, hooks, calls, k - 1, ran)
         || (ran != [] && ran[|ran| - 1] == calls[k - 1] && Prepare(tools, hooks, calls[k - 1]).Prepared?
             && Cleared(tools, hooks, calls, k - 1, ran[..|ran| - 1]))
  }

  /** `now` extends `was` by calls of the first `k` that were cleared to run, each once: by all of those, without an
      abort. */
  ghost predicate Ran(tools: map<string, Tool>, hooks: Hooks, calls: seq<ToolCall>, k: nat, was: seq<ToolCall>, now: seq<ToolCall>, calm: bool) {
    && k <= |calls|
    && was <= now
    && Cleared(tools, hooks, calls, k, now[|was|..])
    && (calm ==> now == was + Runnable(tools, hooks, calls[..k]))
  }

  lemma NoneRan(tools: map<string, Tool>, hooks: Hooks, calls: seq<ToolCall>, was: seq<ToolCall>, calm: bool)
    ensures Ran(tools, hooks, calls, 0, was, was, calm)
  {
    assert calls[..0] == [] && was + [] == was && was[|was|..] == [];
  }

  lemma RanGrows(tools: map<string, Tool>, hooks: Hooks, calls: seq<ToolCall>, k: nat, was: seq<ToolCall>, now: seq<ToolCall>, calm: bool,
                 prep: Preparation)
    requires Ran(tools, hooks, calls, k, was, now, calm) && k < |calls|
    requires PreparedAs(tools, hooks, calls[k], prep, calm)
    ensures Ran(tools, hooks, calls, k + 1, was, if prep.Prepared? then now + [calls[k]] else now, calm)
  {
    RunnableGrows(tools, hooks, calls, k);
    if prep.Prepared? {
      var ran := now[|was|..] + [calls[k]];
      assert (now + [calls[k]])[|was|..] == ran && ran[..|ran| - 1] == now[|was|..];
    }
  }

  lemma RunnableGrows(tools: map<string, Tool>, hooks: Hooks, calls: seq<ToolCall>, k: nat)
    requires k < |calls|
    ensures Runnable(tools, hooks, calls[..k + 1]) ==
            Runnable(tools, hooks, calls[..k]) + (if Prepare(tools, hooks, calls[k]).Prepared? then [calls[k]] else [])
  {
    assert calls[..k + 1][..k] == calls[..k];
  }

  /** Where a batch run in turn stands after some calls. */
  ghost predicate Progress(tools: map<string, Tool>, hooks: Hooks, calls: seq<ToolCall>, done: seq<Finalized>, messages: seq<Message>,
                           was: seq<ToolCall>, now: seq<ToolCall>, calm: bool) {
    && Settled(tools, hooks, calls, done, calm)
    && messages == Results(done)
    && Ran(tools, hooks, calls, |done|, was, now, calm)
  }

  lemma NothingDone(tools: map<string, Tool>, hooks: Hooks, calls: seq<ToolCall>, was: seq<ToolCall>, calm: bool)
    ensures Progress(tools, hooks, calls, [], [], was, was, calm)
  {
    NoneRan(tools, hooks, calls, was, calm);
  }

  lemma ProgressGrows(tools: map<string, Tool>, hooks: Hooks, calls: seq<ToolCall>, done: seq<Finalized>, messages: seq<Message>,
                      was: seq<ToolCall>, now: seq<ToolCall>, calm: bool, prep: Preparation, f: Finalized)
    requires Progress(tools, hooks, calls, done, messages, was, now, calm) && |done| < |calls|
    requires PreparedAs(tools, hooks, calls[|done|], prep, calm) && SettledAs(tools, hooks, calls[|done|], f, calm)
    ensures Progress(tools, hooks, calls, done + [f], messages + [ResultMessage(f)], was,
                     if prep.Prepared? then now + [calls[|done|]] else now, calm)
  {
    RanGrows(tools, hooks, calls, |done|, was, now, calm, prep);
    SettledGrows(tools, hooks, calls, done, f, calm);
    ResultsGrow(done, f);
  }

  // ----- which starts still lack an end -----

  function Live(entries: seq<Entry>, live: seq<bool>): multiset<string>
    requires |entries| == |live|
  {
    if entries == [] then multiset{}
    else
      var n := |entries| - 1;
      Live(entries[..n], live[..n]) + (if live[n] then multiset{entries[n].call.id} else multiset{})
  }

  function AllLive(n: nat): seq<bool> { seq(n, i => true) }

  lemma AllLiveGrows(n: nat)
    ensures AllLive(n) + [true] == AllLive(n + 1)
  {
  }

  lemma LiveGrows(entries: seq<Entry>, live: seq<bool>, e: Entry)
    requires |entries| == |live|
    ensures Live(entries + [e], live + [true]) == Live(entries, live) + multiset{e.call.id}
  {
    assert (entries + [e])[..|entries|] == entries && (live + [true])[..|live|] == live;
  }

  lemma {:induction false} LiveEnds(entries: seq<Entry>, live: seq<bool>, i: nat)
    requires |entries| == |live| && i < |live| && live[i]
    ensures Live(entries, live) == Live(entries, live[i := false]) + multiset{entries[i].call.id}
  {
    var n := |entries| - 1;
    if i < n {
      LiveEnds(entries[..n], live[..n], i);
      assert live[i := false][..n] == live[..n][i := false];
    } else {
      assert live[i := false][..n] == live[..n];
    }
  }

  lemma {:induction false} NoneLive(entries: seq<Entry>, live: seq<bool>)
    requires |entries| == |live| && forall i :: 0 <= i < |live| ==> !live[i]
    ensures Live(entries, live) == multiset{}
  {
    if entries != [] {
      NoneLive(entries[..|entries| - 1], live[..|live| - 1]);
    }
  }

  // ----- calls running together -----

  /** Of the first `n` entries those in `waiting` are still running and the others have their outcome. */
  ghost predicate Waiting(hooks: Hooks, entries: seq<Entry>, n: nat, waiting: set<nat>, settled: map<nat, Finalized>, live: seq<bool>) {
    && n <= |entries| == |live|
    && (forall i :: i in waiting ==> i < n && entries[i].prep.Prepared?)
    && (forall i :: 0 <= i < n && i !in waiting ==> i in settled && settled[i] == Complete(hooks, entries[i].call, entries[i].prep))
    && (forall i :: 0 <= i < |entries| ==> (live[i] <==> (i >= n || i in waiting)))
  }

  lemma WaitingEnds(hooks: Hooks, entries: seq<Entry>, n: nat, waiting: set<nat>, settled: map<nat, Finalized>, live: seq<bool>, f: Finalized)
    requires Waiting(hooks, entries, n, waiting, settled, live) && n < |entries| && n !in waiting
    requires entries[n].prep.Immediate? && f == Complete(hooks, entries[n].call, entries[n].prep)
    ensures Waiting(hooks, entries, n + 1, waiting, settled[n := f], live[n := false])
  {
  }

  lemma WaitingGrows(hooks: Hooks, entries: seq<Entry>, n: nat, waiting: set<nat>, settled: map<nat, Finalized>, live: seq<bool>)
    requires Waiting(hooks, entries, n, waiting, settled, live) && n < |entries| && entries[n].prep.Prepared?
    ensures Waiting(hooks, entries, n + 1, waiting + {n}, settled, live)
  {
  }

  lemma WaitingSettles(hooks: Hooks, entries: seq<Entry>, n: nat, waiting: set<nat>, settled: map<nat, Finalized>, live: seq<bool>, i: nat, f: Finalized)
    requires Waiting(hooks, entries, n, waiting, settled, live) && i in waiting
    requires f == Complete(hooks, entries[i].call, entries[i].prep)
    ensures Waiting(hooks, entries, n, waiting - {i}, settled[i := f], live[i := false])
  {
  }

  lemma CompleteIsSettled(tools: map<string, Tool>, hooks: Hooks, call: ToolCall, prep: Preparation, calm: bool)
    requires PreparedAs(tools, hooks, call, prep, calm)
    ensures SettledAs(tools, hooks, call, Complete(hooks, call, prep), calm)
  {
  }

  lemma ReachedSettles(tools: map<string, Tool>, hooks: Hooks, calls: seq<ToolCall>, entries: seq<Entry>, n: nat, settled: map<nat, Finalized>,
                       live: seq<bool>, calm: bool, k: nat)
    requires Reached(tools, hooks, calls, entries, calm) && Waiting(hooks, entries, n, {}, settled, live) && k < n
    ensures k in settled && k < |calls| && SettledAs(tools, hooks, calls[k], settled[k], calm)
  {
    ReachedAt(tools, hooks, calls, entries, calm, k);
    CompleteIsSettled(tools, hooks, entries[k].call, entries[k].prep, calm);
  }

  /** Where the reporting of a batch stands after `k` results. */
  ghost predicate Reported(tools: map<string, Tool>, hooks: Hooks, calls: seq<ToolCall>, ordered: seq<Finalized>, messages: seq<Message>,
                           k: nat, calm: bool) {
    |ordered| == k && Settled(tools, hooks, calls, ordered, calm) && messages == Results(ordered)
  }

  lemma ReportGrows(tools: map<string, Tool>, hooks: Hooks, calls: seq<ToolCall>, entries: seq<Entry>, n: nat, settled: map<nat, Finalized>,
                    live: seq<bool>, ordered: seq<Finalized>, messages: seq<Message>, k: nat, calm: bool)
    requires Reached(tools, hooks, calls, entries, calm) && Waiting(hooks, entries, n, {}, settled, live) && k < n
    requires Reported(tools, hooks, calls, ordered, messages, k, calm)
    ensures k in settled
    ensures Reported(tools, hooks, calls, ordered + [settled[k]], messages + [ResultMessage(settled[k])], k + 1, calm)
  {
    ReachedSettles(tools, hooks, calls, entries, n, settled, live, calm, k);
    SettledGrows(tools, hooks, calls, ordered, settled[k], calm);
    ResultsGrow(ordered, settled[k]);
  }
}
