/** What each call of a batch comes to, told from the call, the tools and the hooks alone. */
module ToolMeaning {
  import opened Options
  import opened AgentEvents
  import opened ToolBatch

  /** The tool of that name takes the arguments, as these. */
  ghost predicate Validates(tools: map<string, Tool>, call: ToolCall, arguments: string) {
    call.name in tools && tools[call.name].validate(call.arguments) == Ok(arguments)
  }

  /** The call is not to run: there is no such tool, it rejects the arguments, or the hook blocks the call or throws. */
  ghost predicate Refused(tools: map<string, Tool>, hooks: Hooks, call: ToolCall, message: string) {
    || (call.name !in tools && message == "Tool " + call.name + " not found")
    || (call.name in tools && tools[call.name].validate(call.arguments) == Err(message))
    || exists arguments :: Validates(tools, call, arguments) && hooks.before.Some? && Vetoes(hooks.before.value(call, arguments), message)
  }

  ghost predicate Vetoes(answer: Before, message: string) {
    match answer
    case Allow => false
    case Block(reason) => message == if reason == "" then "Tool execution was blocked" else reason
    case BeforeThrows(m) => message == m
  }

  ghost predicate Admitted(tools: map<string, Tool>, hooks: Hooks, call: ToolCall, arguments: string) {
    Validates(tools, call, arguments) && (hooks.before.None? || hooks.before.value(call, arguments).Allow?)
  }

  ghost predicate Runs(tools: map<string, Tool>, hooks: Hooks, call: ToolCall) { exists arguments :: Admitted(tools, hooks, call, arguments) }

  /** Of the calls those that run, in their order. */
  ghost function Running(tools: map<string, Tool>, hooks: Hooks, calls: seq<ToolCall>): seq<ToolCall> {
    if calls == [] then []
    else if Runs(tools, hooks, calls[0]) then [calls[0]] + Running(tools, hooks, calls[1..])
    else Running(tools, hooks, calls[1..])
  }

  /** The tool's own output, or its error, before any hook. */
  ghost predicate Raw(executed: Result<ToolOutput, string>, content: string, terminate: bool, isError: bool) {
    match executed
    case Ok(output) => content == output.content && (terminate <==> output.terminate) && !isError
    case Err(message) => content == message && !terminate && isError
  }

  /** What the hook makes of it: each part it gives replaces the tool's, and a hook that throws leaves its own error. */
  ghost predicate Revised(answer: After, content: string, terminate: bool, isError: bool, f: Finalized) {
    match answer
    case Keep => f.output.content == content && (f.output.terminate <==> terminate) && (f.isError <==> isError)
    case AfterThrows(message) => f.output.content == message && !f.output.terminate && f.isError
    case Patch(c, t, e) =>
      && (c.Some? ==> f.output.content == c.value) && (c.None? ==> f.output.content == content)
      && (t.Some? ==> (f.output.terminate <==> t.value)) && (t.None? ==> (f.output.terminate <==> terminate))
      && (e.Some? ==> (f.isError <==> e.value)) && (e.None? ==> (f.isError <==> isError))
  }

  ghost predicate Comes(tools: map<string, Tool>, hooks: Hooks, call: ToolCall, f: Finalized) {
    && f.call == call
    && (forall message :: Refused(tools, hooks, call, message) ==> f.output.content == message && !f.output.terminate && f.isError)
    && (forall arguments :: Admitted(tools, hooks, call, arguments) ==>
          exists content, terminate, isError ::
            && Raw(tools[call.name].execute(call.id, arguments), content, terminate, isError)
            && Revised(if hooks.after.None? then Keep else hooks.after.value(call, arguments, ToolOutput(content, terminate), isError),
                       content, terminate, isError, f))
  }

  /** The results of a batch, one by one: without an abort of all the calls; with one of the first of them, and a call
      that was not yet prepared may then be refused. */
  ghost predicate Told(tools: map<string, Tool>, hooks: Hooks, calls: seq<ToolCall>, finalized: seq<Finalized>, calm: bool) {
    && |finalized| <= |calls| && (calm ==> |finalized| == |calls|)
    && forall i :: 0 <= i < |finalized| ==>
         || Comes(tools, hooks, calls[i], finalized[i])
         || (!calm && finalized[i] == Finalized(calls[i], ToolOutput("Operation aborted", false), true))
  }

  /** A batch reports these results, and asks the agent to stop exactly if it has some and every one of them does. */
  ghost predicate Shows(finalized: seq<Finalized>, messages: seq<Message>, terminate: bool) {
    && |messages| == |finalized|
    && (forall i :: 0 <= i < |messages| ==>
          messages[i] == ToolResult(finalized[i].call.id, finalized[i].call.name, finalized[i].output.content, finalized[i].isError))
    && (terminate <==> finalized != [] && forall i :: 0 <= i < |finalized| ==> finalized[i].output.terminate)
  }

  /** `ran` are calls that run, each once and in order: without an abort all of them. */
  ghost predicate Executes(tools: map<string, Tool>, hooks: Hooks, calls: seq<ToolCall>, ran: seq<ToolCall>, calm: bool) {
    Among(ran, Running(tools, hooks, calls)) && (calm ==> ran == Running(tools, hooks, calls))
  }

  /** `some` can be had from `all` by leaving out. */
  ghost predicate Among(some: seq<ToolCall>, all: seq<ToolCall>) {
    || some == []
    || (all != [] && (Among(some, all[1..]) || (some[0] == all[0] && Among(some[1..], all[1..]))))
  }

  /** The agent, or the tool of one of the calls, wants its calls one at a time, whatever their arguments. */
  ghost predicate MustTakeTurns(tools: map<string, Tool>, hooks: Hooks, calls: seq<ToolCall>) {
    hooks.mode.Sequential? || exists c <- calls :: c.name in tools && tools[c.name].mode.Sequential?
  }

  /** Or for the arguments of a call that is to run. */
  ghost predicate MayTakeTurns(tools: map<string, Tool>, hooks: Hooks, calls: seq<ToolCall>) {
    exists c <- calls :: TurnsFor(tools, hooks, c)
  }

  ghost predicate TurnsFor(tools: map<string, Tool>, hooks: Hooks, c: ToolCall) {
    exists arguments ::
      && Admitted(tools, hooks, c, arguments)
      && ((hooks.mode.ByArguments? && hooks.mode.sequential(arguments))
          || (tools[c.name].mode.ByArguments? && tools[c.name].mode.sequential(arguments)))
  }

  // ----- the specification means this -----

  lemma EitherWay(tools: map<string, Tool>, hooks: Hooks, call: ToolCall)
    ensures match Prepare(tools, hooks, call)
            case Immediate(output) => !Runs(tools, hooks, call) && Refused(tools, hooks, call, output.content) && !output.terminate
            case Prepared(tool, arguments) => Admitted(tools, hooks, call, arguments) && tool == tools[call.name]
    ensures Prepare(tools, hooks, call).Prepared? ==> forall message :: !Refused(tools, hooks, call, message)
    ensures forall a, b :: Refused(tools, hooks, call, a) && Refused(tools, hooks, call, b) ==> a == b
    ensures forall a, b :: Admitted(tools, hooks, call, a) && Admitted(tools, hooks, call, b) ==> a == b
  {
    if call.name in tools {
      var validated := tools[call.name].validate(call.arguments);
      if validated.Ok? { assert Validates(tools, call, validated.value); }
    }
  }

  lemma FinalizedIsRevised(hooks: Hooks, call: ToolCall, arguments: string, executed: Result<ToolOutput, string>)
    ensures var f := Finalize(hooks, call, arguments, executed);
            exists content, terminate, isError ::
              && Raw(executed, content, terminate, isError)
              && Revised(if hooks.after.None? then Keep else hooks.after.value(call, arguments, ToolOutput(content, terminate), isError),
                         content, terminate, isError, f)
  {
    match executed
    case Ok(output) =>
      assert output == ToolOutput(output.content, output.terminate);
      assert Raw(executed, output.content, output.terminate, false);
    case Err(message) => assert Raw(executed, message, false, true);
  }

  lemma CompleteComes(tools: map<string, Tool>, hooks: Hooks, call: ToolCall)
    ensures Comes(tools, hooks, call, Complete(hooks, call, Prepare(tools, hooks, call)))
  {
    EitherWay(tools, hooks, call);
    CompleteNamesItsCall(hooks, call, Prepare(tools, hooks, call));
    var prep := Prepare(tools, hooks, call);
    if prep.Prepared? { FinalizedIsRevised(hooks, call, prep.arguments, tools[call.name].execute(call.id, prep.arguments)); }
  }

  lemma SettledIsTold(tools: map<string, Tool>, hooks: Hooks, calls: seq<ToolCall>, finalized: seq<Finalized>, calm: bool)
    requires Settled(tools, hooks, calls, finalized, calm) && (calm ==> |finalized| == |calls|)
    ensures Told(tools, hooks, calls, finalized, calm)
  {
    forall i | 0 <= i < |finalized|
      ensures Comes(tools, hooks, calls[i], finalized[i]) || (!calm && finalized[i] == Finalized(calls[i], ToolOutput("Operation aborted", false), true))
    {
      SettledAt(tools, hooks, calls, finalized, calm, i);
      CompleteComes(tools, hooks, calls[i]);
    }
  }

  lemma BatchShows(finalized: seq<Finalized>)
    ensures Shows(finalized, BatchOf(finalized).messages, BatchOf(finalized).terminate)
  {
    forall i | 0 <= i < |finalized|
      ensures Results(finalized)[i] == ToolResult(finalized[i].call.id, finalized[i].call.name, finalized[i].output.content, finalized[i].isError)
    {
      ResultsAt(finalized, i);
    }
  }

  lemma {:induction false} RunningGrows(tools: map<string, Tool>, hooks: Hooks, calls: seq<ToolCall>, c: ToolCall)
    ensures Running(tools, hooks, calls + [c]) == Running(tools, hooks, calls) + (if Runs(tools, hooks, c) then [c] else [])
  {
    if calls == [] {
      assert ([] + [c])[1..] == [];
    } else {
      assert (calls + [c])[1..] == calls[1..] + [c];
      RunningGrows(tools, hooks, calls[1..], c);
    }
  }

  lemma {:induction false} RunnableIsRunning(tools: map<string, Tool>, hooks: Hooks, calls: seq<ToolCall>)
    ensures Runnable(tools, hooks, calls) == Running(tools, hooks, calls)
  {
    if calls != [] {
      var front, last := calls[..|calls| - 1], calls[|calls| - 1];
      assert calls == front + [last];
      RunnableIsRunning(tools, hooks, front);
      RunningGrows(tools, hooks, front, last);
      EitherWay(tools, hooks, last);
    }
  }

  lemma {:induction false} AmongLonger(some: seq<ToolCall>, all: seq<ToolCall>, c: ToolCall)
    requires Among(some, all)
    ensures Among(some, all + [c]) && Among(some + [c], all + [c])
  {
    assert (some + [c])[0] == (if some == [] then c else some[0]);
    if all == [] {
      assert (some + [c])[1..] == [];
    } else {
      assert (all + [c])[1..] == all[1..] + [c];
      if Among(some, all[1..]) { AmongLonger(some, all[1..], c); }
      if some != [] {
        assert (some + [c])[1..] == some[1..] + [c];
        if some[0] == all[0] && Among(some[1..], all[1..]) { AmongLonger(some[1..], all[1..], c); }
      } else {
        AmongLonger([], all[1..], c);
      }
    }
  }

  lemma {:induction false} ClearedIsAmong(tools: map<string, Tool>, hooks: Hooks, calls: seq<ToolCall>, k: nat, ran: seq<ToolCall>)
    requires Cleared(tools, hooks, calls, k, ran)
    ensures Among(ran, Running(tools, hooks, calls[..k]))
  {
    if k > 0 {
      assert calls[..k] == calls[..k - 1] + [calls[k - 1]];
      RunningGrows(tools, hooks, calls[..k - 1], calls[k - 1]);
      assert Running(tools, hooks, calls[..k - 1]) + [] == Running(tools, hooks, calls[..k - 1]);
      if Cleared(tools, hooks, calls, k - 1, ran) {
        ClearedIsAmong(tools, hooks, calls, k - 1, ran);
        AmongLonger(ran, Running(tools, hooks, calls[..k - 1]), calls[k - 1]);
      } else {
        EitherWay(tools, hooks, calls[k - 1]);
        ClearedIsAmong(tools, hooks, calls, k - 1, ran[..|ran| - 1]);
        AmongLonger(ran[..|ran| - 1], Running(tools, hooks, calls[..k - 1]), calls[k - 1]);
        assert ran == ran[..|ran| - 1] + [calls[k - 1]];
      }
    }
  }

  lemma {:induction false} AmongMore(tools: map<string, Tool>, hooks: Hooks, calls: seq<ToolCall>, k: nat, ran: seq<ToolCall>)
    requires k <= |calls| && Among(ran, Running(tools, hooks, calls[..k]))
    ensures Among(ran, Running(tools, hooks, calls))
    decreases |calls| - k
  {
    if k == |calls| {
      assert calls[..k] == calls;
    } else {
      assert calls[..k + 1] == calls[..k] + [calls[k]];
      RunningGrows(tools, hooks, calls[..k], calls[k]);
      assert Running(tools, hooks, calls[..k]) + [] == Running(tools, hooks, calls[..k]);
      AmongLonger(ran, Running(tools, hooks, calls[..k]), calls[k]);
      AmongMore(tools, hooks, calls, k + 1, ran);
    }
  }

  lemma RanExecutes(tools: map<string, Tool>, hooks: Hooks, calls: seq<ToolCall>, k: nat, was: seq<ToolCall>, now: seq<ToolCall>, calm: bool)
    requires Ran(tools, hooks, calls, k, was, now, calm) && (calm ==> k == |calls|)
    ensures was <= now && Executes(tools, hooks, calls, now[|was|..], calm)
  {
    ClearedIsAmong(tools, hooks, calls, k, now[|was|..]);
    AmongMore(tools, hooks, calls, k, now[|was|..]);
    if calm {
      assert calls[..k] == calls;
      RunnableIsRunning(tools, hooks, calls);
    }
  }

  lemma WantsIsTurns(tools: map<string, Tool>, hooks: Hooks, c: ToolCall)
    requires !hooks.mode.Sequential? && (c.name in tools ==> !tools[c.name].mode.Sequential?)
    ensures Wants(hooks, Prepare(tools, hooks, c)) <==> TurnsFor(tools, hooks, c)
  {
    EitherWay(tools, hooks, c);
  }

  lemma {:induction false} WantingIsTurns(tools: map<string, Tool>, hooks: Hooks, calls: seq<ToolCall>, entries: seq<Entry>)
    requires Reached(tools, hooks, calls, entries, true) && !MustTakeTurns(tools, hooks, calls)
    ensures Wanting(hooks, entries) <==> MayTakeTurns(tools, hooks, calls[..|entries|])
  {
    if entries != [] {
      var n := |entries| - 1;
      WantingIsTurns(tools, hooks, calls, entries[..n]);
      assert calls[n] in calls;
      WantsIsTurns(tools, hooks, calls[n]);
      assert calls[..n + 1] == calls[..n] + [calls[n]];
    }
  }

  lemma WantingMayTakeTurns(tools: map<string, Tool>, hooks: Hooks, calls: seq<ToolCall>, entries: seq<Entry>)
    requires Reached(tools, hooks, calls, entries, true) && |entries| == |calls|
    ensures !MustTakeTurns(tools, hooks, calls) ==> (Wanting(hooks, entries) <==> MayTakeTurns(tools, hooks, calls))
  {
    assert calls[..|entries|] == calls;
    if !MustTakeTurns(tools, hooks, calls) { WantingIsTurns(tools, hooks, calls, entries); }
  }

  lemma BatchMeans(tools: map<string, Tool>, hooks: Hooks, calls: seq<ToolCall>, finalized: seq<Finalized>, was: seq<ToolCall>, now: seq<ToolCall>,
                   calm: bool)
    requires Settled(tools, hooks, calls, finalized, calm) && (calm ==> |finalized| == |calls|)
    requires Ran(tools, hooks, calls, |finalized|, was, now, calm)
    ensures Told(tools, hooks, calls, finalized, calm) && Shows(finalized, BatchOf(finalized).messages, BatchOf(finalized).terminate)
    ensures was <= now && Executes(tools, hooks, calls, now[|was|..], calm)
  {
    SettledIsTold(tools, hooks, calls, finalized, calm);
    BatchShows(finalized);
    RanExecutes(tools, hooks, calls, |finalized|, was, now, calm);
  }

  lemma OutcomesAreTold(tools: map<string, Tool>, hooks: Hooks, calls: seq<ToolCall>)
    ensures Told(tools, hooks, calls, Outcomes(tools, hooks, calls), true)
  {
    forall i | 0 <= i < |calls| ensures Comes(tools, hooks, calls[i], Outcomes(tools, hooks, calls)[i]) {
      OutcomesAt(tools, hooks, calls, i);
      CompleteComes(tools, hooks, calls[i]);
    }
  }

  /** Every call gets exactly one result, in its own position, and a call that is refused an error with that very message;
      and a batch with such a call never asks the agent to stop. */
  lemma BatchCoversEveryCall(tools: map<string, Tool>, hooks: Hooks, calls: seq<ToolCall>, i: nat)
    requires i < |calls|
    ensures var b := BatchOf(Outcomes(tools, hooks, calls));
            && |b.messages| == |calls|
            && b.messages[i].ToolResult? && b.messages[i].callId == calls[i].id
            && forall message :: Refused(tools, hooks, calls[i], message) ==> b.messages[i].isError && b.messages[i].content == message && !b.terminate
  {
    OutcomesAt(tools, hooks, calls, i);
    CompleteComes(tools, hooks, calls[i]);
    BatchShows(Outcomes(tools, hooks, calls));
  }

  /** A call runs or is refused, never both. */
  lemma RunsOrIsRefused(tools: map<string, Tool>, hooks: Hooks, call: ToolCall)
    ensures Runs(tools, hooks, call) <==> !exists message :: Refused(tools, hooks, call, message)
  {
    EitherWay(tools, hooks, call);
  }
}
