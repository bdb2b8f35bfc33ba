/** The running of one batch of tool calls: three strategies, and abort at any of the points where the signal
    is looked at. */
module ToolScheduling {
  import opened Options
  import opened AgentEvents
  import opened ToolBatch
  import M = ToolMeaning

  function Max(a: int, b: int): int { if a < b then b else a }

  class ToolRunner {
    var trace: seq<Event>
    var state: AgentState
    var executed: seq<ToolCall>
    /** How often the abort signal has been looked at; it is seen raised from look number `abortAt` on. */
    var polls: nat
    const abortAt: Option<nat>
    const hooks: Hooks
    ghost var origin: AgentState
    /** The largest number of tools that were being executed at once. */
    ghost var peak: nat

    constructor (hooks: Hooks, abortAt: Option<nat>, state: AgentState)
      ensures this.hooks == hooks && this.abortAt == abortAt && this.state == state && origin == state
      ensures trace == [] && executed == [] && peak == 0 && Valid()
    {
      this.hooks := hooks;
      this.abortAt := abortAt;
      this.state := state;
      origin := state;
      trace := [];
      executed := [];
      polls := 0;
      peak := 0;
    }

    ghost predicate Valid() reads this`state, this`trace, this`origin { state == ReduceAll(origin, trace) }

    ghost predicate Calm() { abortAt.None? }

    ghost function Now(): Phase reads this`trace { AdvanceAll(START, trace) }

    ghost function Completed(): seq<Message> reads this`trace { MessagesOf(trace) }

    ghost predicate Quiet() reads this`state, this`trace, this`origin { Valid() && Now().stage.InTurn? && !Now().open }

    method Aborted() returns (r: bool)
      modifies this`polls
      ensures r ==> !Calm()
    {
      r := abortAt.Some? && polls >= abortAt.value;
      polls := polls + 1;
    }

    // ----- events -----

    method Emit(e: Event)
      requires Valid()
      modifies this`trace, this`state
      ensures Valid()
      ensures trace == old(trace) + [e]
      ensures Now() == Advance(old(Now()), e)
      ensures Completed() == old(Completed()) + (if e.MessageEnd? then [e.message] else [])
    {
      Appended(origin, START, trace, e);
      trace := trace + [e];
      state := Reduce(state, e);
    }

    method EmitMessage(m: Message)
      requires Quiet()
      modifies this`trace, this`state
      ensures Quiet() && Now() == old(Now())
      ensures Completed() == old(Completed()) + [m]
    {
      Emit(MessageStart(m));
      Emit(MessageEnd(m));
    }

    method EmitEnd(f: Finalized, ghost rest: multiset<string>)
      requires Quiet() && Now().running == rest + multiset{f.call.id}
      modifies this`trace, this`state
      ensures Quiet() && Now() == old(Now()).(running := rest)
      ensures Completed() == old(Completed())
    {
      Emit(ToolEnd(f.call.id));
      assert rest + multiset{f.call.id} - multiset{f.call.id} == rest;
    }

    method EmitResult(f: Finalized) returns (m: Message)
      requires Quiet()
      modifies this`trace, this`state
      ensures Quiet() && Now() == old(Now())
      ensures m == ResultMessage(f)
      ensures Completed() == old(Completed()) + [m]
    {
      m := ResultMessage(f);
      EmitMessage(m);
    }

    // ----- one call -----

    method PrepareToolCall(tools: map<string, Tool>, call: ToolCall) returns (prep: Preparation)
      modifies this`polls
      ensures PreparedAs(tools, hooks, call, prep, Calm())
    {
      if call.name !in tools { return Immediate(ErrorOutput("Tool " + call.name + " not found")); }
      var tool := tools[call.name];
      var validated := tool.validate(call.arguments);
      if validated.Err? { return Immediate(ErrorOutput(validated.error)); }
      if hooks.before.Some? {
        var before := hooks.before.value(call, validated.value);
        if before.BeforeThrows? { return Immediate(ErrorOutput(before.message)); }
        var stopped := Aborted();
        if stopped { return Immediate(AbortedOutput()); }
        if before.Block? { return Immediate(ErrorOutput(if before.reason == "" then BLOCKED else before.reason)); }
      }
      var aborted := Aborted();
      if aborted { return Immediate(AbortedOutput()); }
      return Prepared(tool, validated.value);
    }

    method Settle(tools: map<string, Tool>, call: ToolCall, prep: Preparation) returns (f: Finalized)
      requires PreparedAs(tools, hooks, call, prep, Calm())
      modifies this`executed, this`peak
      ensures SettledAs(tools, hooks, call, f, Calm()) && f.call == call
      ensures old(peak) <= peak <= Max(old(peak), 1)
      ensures executed == if prep.Prepared? then old(executed) + [call] else old(executed)
    {
      CompleteNamesItsCall(hooks, call, prep);
      match prep
      case Immediate(output) => f := Finalized(call, output, true);
      case Prepared(tool, arguments) =>
        executed := executed + [call];
        peak := Max(peak, 1);
        f := Finalize(hooks, call, arguments, tool.execute(call.id, arguments));
    }

    // ----- calls that are not to be run -----

    /** Calls of a message cut off by the token limit: each gets an error, none is run. */
    method FailTruncated(calls: seq<ToolCall>) returns (batch: Batch)
      requires Quiet() && Now().running == multiset{}
      modifies this`trace, this`state
      ensures Quiet() && Now() == old(Now())
      ensures batch == Batch(TruncatedResults(calls), false)
      ensures Completed() == old(Completed()) + batch.messages
    {
      var messages: seq<Message> := [];
      for k := 0 to |calls|
        invariant Quiet() && Now() == old(Now())
        invariant messages == TruncatedResults(calls[..k])
        invariant Completed() == old(Completed()) + messages
      {
        Emit(ToolStart(calls[k].id));
        var f := Finalized(calls[k], TruncatedOutput(calls[k]), true);
        EmitEnd(f, multiset{});
        var m := EmitResult(f);
        TruncatedGrows(calls, k);
        messages := messages + [m];
      }
      assert calls[..|calls|] == calls;
      batch := Batch(messages, false);
    }

    // ----- strategy 1: prepare, run and finish each call in turn -----

    method RunCall(tools: map<string, Tool>, ghost calls: seq<ToolCall>, call: ToolCall, done: seq<Finalized>, messages: seq<Message>,
                   ghost was: seq<ToolCall>, ghost start: seq<Message>)
      returns (done': seq<Finalized>, messages': seq<Message>)
      requires Quiet() && Now().running == multiset{} && Completed() == start + messages
      requires Progress(tools, hooks, calls, done, messages, was, executed, Calm()) && |done| < |calls| && calls[|done|] == call
      modifies this`trace, this`state, this`executed, this`polls, this`peak
      ensures Quiet() && Now() == old(Now()) && Completed() == start + messages'
      ensures |done'| == |done| + 1 && old(peak) <= peak <= Max(old(peak), 1)
      ensures Progress(tools, hooks, calls, done', messages', was, executed, Calm())
    {
      Emit(ToolStart(call.id));
      var prep := PrepareToolCall(tools, call);
      var f := Settle(tools, call, prep);
      EmitEnd(f, multiset{});
      var m := EmitResult(f);
      ProgressGrows(tools, hooks, calls, done, messages, was, old(executed), Calm(), prep, f);
      done', messages' := done + [f], messages + [m];
    }

    method ExecuteStaticSequential(tools: map<string, Tool>, calls: seq<ToolCall>) returns (batch: Batch, ghost finalized: seq<Finalized>)
      requires Quiet() && Now().running == multiset{}
      modifies this`trace, this`state, this`executed, this`polls, this`peak
      ensures Quiet() && Now() == old(Now())
      ensures Settled(tools, hooks, calls, finalized, Calm()) && batch == BatchOf(finalized)
      ensures Completed() == old(Completed()) + batch.messages
      ensures Ran(tools, hooks, calls, |finalized|, old(executed), executed, Calm())
      ensures Calm() ==> |finalized| == |calls|
      ensures old(peak) <= peak <= Max(old(peak), 1)
    {
      var done: seq<Finalized> := [];
      var messages: seq<Message> := [];
      var k, aborted := 0, false;
      while k < |calls| && !aborted
        invariant aborted ==> !Calm()
        invariant k == |done| <= |calls| && old(peak) <= peak <= Max(old(peak), 1)
        invariant Quiet() && Now() == old(Now())
        invariant Completed() == old(Completed()) + messages
        invariant Progress(tools, hooks, calls, done, messages, old(executed), executed, Calm())
      {
        done, messages := RunCall(tools, calls, calls[k], done, messages, old(executed), old(Completed()));
        k := k + 1;
        aborted := Aborted();
      }
      batch := Batch(messages, ShouldTerminate(done));
      finalized := done;
    }

    // ----- strategies 2 and 3: prepare every call first -----

    /** Starts and prepares the next call; `aborted` if the signal is seen after it. */
    method StartCall(tools: map<string, Tool>, calls: seq<ToolCall>, entries: seq<Entry>, ghost phase: Phase)
      returns (entries': seq<Entry>, sequential: bool, aborted: bool)
      requires Reached(tools, hooks, calls, entries, Calm()) && |entries| < |calls|
      requires Quiet() && Now() == phase.(running := Live(entries, AllLive(|entries|)))
      modifies this`trace, this`state, this`polls
      ensures |entries'| == |entries| + 1 && Reached(tools, hooks, calls, entries', Calm())
      ensures Quiet() && Now() == phase.(running := Live(entries', AllLive(|entries'|)))
      ensures Completed() == old(Completed())
      ensures aborted ==> !Calm()
      ensures Wanting(hooks, entries') <==> Wanting(hooks, entries) || sequential
    {
      var call := calls[|entries|];
      Emit(ToolStart(call.id));
      var prep := PrepareToolCall(tools, call);
      LiveGrows(entries, AllLive(|entries|), Entry(call, prep));
      AllLiveGrows(|entries|);
      ReachedGrows(tools, hooks, calls, entries, prep, Calm());
      entries' := entries + [Entry(call, prep)];
      WantingGrows(hooks, entries, Entry(call, prep));
      sequential := prep.Prepared? && (WantsSequential(hooks.mode, prep.arguments) || WantsSequential(prep.tool.mode, prep.arguments));
      aborted := Aborted();
    }

    method PrepareAll(tools: map<string, Tool>, calls: seq<ToolCall>) returns (entries: seq<Entry>, sequential: bool)
      requires Quiet() && Now().running == multiset{}
      modifies this`trace, this`state, this`polls
      ensures Quiet() && Now() == old(Now()).(running := Live(entries, AllLive(|entries|)))
      ensures Completed() == old(Completed())
      ensures Reached(tools, hooks, calls, entries, Calm())
      ensures Calm() ==> |entries| == |calls|
      ensures sequential <==> Wanting(hooks, entries)
    {
      entries := [];
      sequential := false;
      ghost var phase := Now();
      var aborted := false;
      while |entries| < |calls| && !aborted
        invariant aborted ==> !Calm()
        invariant |entries| <= |calls| && (sequential <==> Wanting(hooks, entries))
        invariant Quiet() && Now() == phase.(running := Live(entries, AllLive(|entries|)))
        invariant Completed() == old(Completed())
        invariant Reached(tools, hooks, calls, entries, Calm())
      {
        var wants;
        entries, wants, aborted := StartCall(tools, calls, entries, phase);
        sequential := sequential || wants;
      }
    }

    /** Ends the call of one entry: `live` says which starts lacked an end before. */
    method EndCall(f: Finalized, ghost entries: seq<Entry>, ghost live: seq<bool>, ghost i: nat)
      requires Quiet() && |entries| == |live| && i < |live| && live[i] && Now().running == Live(entries, live)
      requires f.call.id == entries[i].call.id
      modifies this`trace, this`state
      ensures Quiet() && Now() == old(Now()).(running := Live(entries, live[i := false]))
      ensures Completed() == old(Completed())
    {
      LiveEnds(entries, live, i);
      EmitEnd(f, Live(entries, live[i := false]));
    }

    method RunEntry(tools: map<string, Tool>, ghost calls: seq<ToolCall>, entries: seq<Entry>, k: nat, ghost live: seq<bool>,
                    done: seq<Finalized>, messages: seq<Message>, ghost was: seq<ToolCall>, ghost start: seq<Message>, ghost phase: Phase)
      returns (done': seq<Finalized>, messages': seq<Message>, aborted: bool)
      requires Reached(tools, hooks, calls, entries, Calm()) && k == |done| < |entries| == |live| && live[k]
      requires Quiet() && Now() == phase.(running := Live(entries, live)) && Completed() == start + messages
      requires Progress(tools, hooks, calls, done, messages, was, executed, Calm())
      modifies this`trace, this`state, this`executed, this`polls, this`peak
      ensures Quiet() && Now() == phase.(running := Live(entries, live[k := false])) && Completed() == start + messages'
      ensures aborted ==> !Calm()
      ensures |done'| == |done| + 1 && old(peak) <= peak <= Max(old(peak), 1)
      ensures Progress(tools, hooks, calls, done', messages', was, executed, Calm())
    {
      hide Reached, Progress;
      ReachedAt(tools, hooks, calls, entries, Calm(), k);
      var f := Settle(tools, entries[k].call, entries[k].prep);
      ProgressGrows(tools, hooks, calls, done, messages, was, old(executed), Calm(), entries[k].prep, f);
      EndCall(f, entries, live, k);
      var m := EmitResult(f);
      done', messages' := done + [f], messages + [m];
      aborted := Aborted();
    }

    method ExecuteSequential(tools: map<string, Tool>, calls: seq<ToolCall>, entries: seq<Entry>)
      returns (batch: Batch, ghost finalized: seq<Finalized>)
      requires Reached(tools, hooks, calls, entries, Calm())
      requires Quiet() && Now().running == Live(entries, AllLive(|entries|))
      modifies this`trace, this`state, this`executed, this`polls, this`peak
      ensures Quiet() && Now() == old(Now()).(running := Now().running) && (Calm() ==> Now().running == multiset{})
      ensures Settled(tools, hooks, calls, finalized, Calm()) && batch == BatchOf(finalized)
      ensures Completed() == old(Completed()) + batch.messages
      ensures Ran(tools, hooks, calls, |finalized|, old(executed), executed, Calm())
      ensures Calm() ==> |finalized| == |entries|
      ensures old(peak) <= peak <= Max(old(peak), 1)
    {
      var done, messages, live := RunEntries(tools, calls, entries);
      if |done| == |entries| { NoneLive(entries, live); }
      batch := Batch(messages, ShouldTerminate(done));
      finalized := done;
    }

    method RunEntries(tools: map<string, Tool>, calls: seq<ToolCall>, entries: seq<Entry>)
      returns (done: seq<Finalized>, messages: seq<Message>, ghost live: seq<bool>)
      requires Reached(tools, hooks, calls, entries, Calm())
      requires Quiet() && Now().running == Live(entries, AllLive(|entries|))
      modifies this`trace, this`state, this`executed, this`polls, this`peak
      ensures |done| <= |entries| == |live| && (forall i :: 0 <= i < |live| ==> (live[i] <==> |done| <= i))
      ensures Quiet() && Now() == old(Now()).(running := Live(entries, live))
      ensures Completed() == old(Completed()) + messages
      ensures Progress(tools, hooks, calls, done, messages, old(executed), executed, Calm())
      ensures Calm() ==> |done| == |entries|
      ensures old(peak) <= peak <= Max(old(peak), 1)
    {
      hide Progress, Reached;
      done, messages, live := [], [], AllLive(|entries|);
      ghost var was, start, phase := executed, Completed(), Now();
      NothingDone(tools, hooks, calls, was, Calm());
      var k, aborted := 0, false;
      while k < |entries| && !aborted
        invariant aborted ==> !Calm()
        invariant k == |done| <= |entries| == |live| && old(peak) <= peak <= Max(old(peak), 1)
        invariant forall i :: 0 <= i < |live| ==> (live[i] <==> k <= i)
        invariant Quiet() && Now() == phase.(running := Live(entries, live)) && Completed() == start + messages
        invariant Progress(tools, hooks, calls, done, messages, was, executed, Calm())
      {
        done, messages, aborted := RunEntry(tools, calls, entries, k, live, done, messages, was, start, phase);
        live, k := live[k := false], k + 1;
      }
    }

    // ----- strategy 3: run together, finish in any order -----

    /** Calls that need no running end at once, in source order. */
    method EndImmediate(entries: seq<Entry>) returns (n: nat, waiting: set<nat>, settled: map<nat, Finalized>, ghost live: seq<bool>)
      requires Quiet() && Now().running == Live(entries, AllLive(|entries|))
      modifies this`trace, this`state, this`polls
      ensures |live| == |entries| && Quiet() && Now() == old(Now()).(running := Live(entries, live))
      ensures Completed() == old(Completed())
      ensures Waiting(hooks, entries, n, waiting, settled, live)
      ensures Calm() ==> n == |entries|
    {
      n, waiting, settled, live := 0, {}, map[], AllLive(|entries|);
      var aborted := false;
      while n < |entries| && !aborted
        invariant aborted ==> !Calm()
        invariant |live| == |entries| && Quiet() && Now() == old(Now()).(running := Live(entries, live))
        invariant Completed() == old(Completed())
        invariant Waiting(hooks, entries, n, waiting, settled, live)
      {
        if entries[n].prep.Immediate? {
          var f := Finalized(entries[n].call, entries[n].prep.output, true);
          EndCall(f, entries, live, n);
          WaitingEnds(hooks, entries, n, waiting, settled, live, f);
          settled, live := settled[n := f], live[n := false];
        } else {
          WaitingGrows(hooks, entries, n, waiting, settled, live);
          waiting := waiting + {n};
        }
        n := n + 1;
        aborted := Aborted();
      }
    }

    /** The others are all started, in source order, before any of them can finish. */
    method StartAll(tools: map<string, Tool>, calls: seq<ToolCall>, entries: seq<Entry>, n: nat)
      requires Reached(tools, hooks, calls, entries, Calm()) && n <= |entries|
      modifies this`executed, this`peak
      ensures Ran(tools, hooks, calls, n, old(executed), executed, Calm())
      ensures |old(executed)| <= |executed| && peak == Max(old(peak), |executed| - |old(executed)|)
    {
      hide Reached, Prepare, Runnable;
      NoneRan(tools, hooks, calls, executed, Calm());
      for k := 0 to n
        invariant Ran(tools, hooks, calls, k, old(executed), executed, Calm())
        invariant |old(executed)| <= |executed| && peak == old(peak)
      {
        ReachedAt(tools, hooks, calls, entries, Calm(), k);
        RanGrows(tools, hooks, calls, k, old(executed), executed, Calm(), entries[k].prep);
        if entries[k].prep.Prepared? { executed := executed + [entries[k].call]; }
      }
      peak := Max(peak, |executed| - |old(executed)|);
    }

    method AwaitAll(entries: seq<Entry>, n: nat, started: set<nat>, early: map<nat, Finalized>, ghost running: seq<bool>)
      returns (settled: map<nat, Finalized>, ghost live: seq<bool>)
      requires Waiting(hooks, entries, n, started, early, running)
      requires Quiet() && Now().running == Live(entries, running)
      modifies this`trace, this`state
      ensures Waiting(hooks, entries, n, {}, settled, live)
      ensures Quiet() && Now() == old(Now()).(running := Live(entries, live))
      ensures Completed() == old(Completed())
    {
      var waiting := started;
      settled, live := early, running;
      while waiting != {}
        invariant Waiting(hooks, entries, n, waiting, settled, live)
        invariant Quiet() && Now() == old(Now()).(running := Live(entries, live))
        invariant Completed() == old(Completed())
        decreases |waiting|
      {
        var i: nat :| i in waiting;
        var Entry(call, prep) := entries[i];
        var f := Finalize(hooks, call, prep.arguments, prep.tool.execute(call.id, prep.arguments));
        CompleteNamesItsCall(hooks, call, prep);
        WaitingSettles(hooks, entries, n, waiting, settled, live, i, f);
        EndCall(f, entries, live, i);
        settled, live, waiting := settled[i := f], live[i := false], waiting - {i};
      }
    }

    method ExecuteParallel(tools: map<string, Tool>, calls: seq<ToolCall>, entries: seq<Entry>)
      returns (batch: Batch, ghost finalized: seq<Finalized>)
      requires Reached(tools, hooks, calls, entries, Calm())
      requires Quiet() && Now().running == Live(entries, AllLive(|entries|))
      modifies this`trace, this`state, this`executed, this`polls, this`peak
      ensures Quiet() && Now() == old(Now()).(running := Now().running) && (Calm() ==> Now().running == multiset{})
      ensures Settled(tools, hooks, calls, finalized, Calm()) && batch == BatchOf(finalized)
      ensures Completed() == old(Completed()) + batch.messages
      ensures Ran(tools, hooks, calls, |finalized|, old(executed), executed, Calm())
      ensures Calm() ==> |finalized| == |entries|
      ensures |old(executed)| <= |executed| && peak == Max(old(peak), |executed| - |old(executed)|)
    {
      var n, waiting, early, running := EndImmediate(entries);
      StartAll(tools, calls, entries, n);
      var settled, live := AwaitAll(entries, n, waiting, early, running);
      if n == |entries| { NoneLive(entries, live); }
      batch, finalized := ReportAll(tools, calls, entries, n, settled, live);
    }

    /** The results are reported in source order, whatever the order in which the calls finished. */
    method ReportAll(tools: map<string, Tool>, calls: seq<ToolCall>, ghost entries: seq<Entry>, n: nat, settled: map<nat, Finalized>,
                     ghost live: seq<bool>)
      returns (batch: Batch, ghost finalized: seq<Finalized>)
      requires Reached(tools, hooks, calls, entries, Calm()) && Waiting(hooks, entries, n, {}, settled, live)
      requires Quiet()
      modifies this`trace, this`state
      ensures Quiet() && Now() == old(Now())
      ensures Settled(tools, hooks, calls, finalized, Calm()) && batch == BatchOf(finalized) && |finalized| == n
      ensures Completed() == old(Completed()) + batch.messages
    {
      var ordered: seq<Finalized> := [];
      var messages: seq<Message> := [];
      ghost var start := Completed();
      for k := 0 to n
        invariant Quiet() && Now() == old(Now()) && Completed() == start + messages
        invariant Reported(tools, hooks, calls, ordered, messages, k, Calm())
      {
        ReportGrows(tools, hooks, calls, entries, n, settled, live, ordered, messages, k, Calm());
        var m := EmitResult(settled[k]);
        ordered, messages := ordered + [settled[k]], messages + [m];
      }
      batch := Batch(messages, ShouldTerminate(ordered));
      finalized := ordered;
    }

    // ----- the batch -----

    /** What every strategy leaves. */
    ghost predicate Batched(tools: map<string, Tool>, calls: seq<ToolCall>, was: seq<ToolCall>, batch: Batch, finalized: seq<Finalized>)
      reads this`executed
    {
      && Settled(tools, hooks, calls, finalized, Calm()) && batch == BatchOf(finalized)
      && Ran(tools, hooks, calls, |finalized|, was, executed, Calm())
      && (Calm() ==> |finalized| == |calls|)
    }

    /** Prepares every call, and only then knows whether they take turns. */
    method ExecutePrepared(tools: map<string, Tool>, calls: seq<ToolCall>) returns (batch: Batch, ghost finalized: seq<Finalized>)
      requires Quiet() && Now().running == multiset{}
      requires !M.MustTakeTurns(tools, hooks, calls)
      modifies this`trace, this`state, this`executed, this`polls, this`peak
      ensures Quiet() && Now() == old(Now()).(running := Now().running) && (Calm() ==> Now().running == multiset{})
      ensures Batched(tools, calls, old(executed), batch, finalized)
      ensures Completed() == old(Completed()) + batch.messages
      ensures Calm() ==> if M.MayTakeTurns(tools, hooks, calls) then peak <= Max(old(peak), 1)
                         else peak == Max(old(peak), |executed| - |old(executed)|)
    {
      var entries, sequential := PrepareAll(tools, calls);
      if Calm() { M.WantingMayTakeTurns(tools, hooks, calls, entries); }
      if sequential {
        batch, finalized := ExecuteSequential(tools, calls, entries);
      } else {
        batch, finalized := ExecuteParallel(tools, calls, entries);
      }
    }

    /** Whatever the strategy and the completion order: each call has the one result that its tool and the hooks
        give, in source order, and the calls that run are executed, each once; with an abort this is so of a prefix of
        the calls, and a call may be refused for it.  Calls that have to take turns do; without an abort, the others
        are all executed at once. */
    method ExecuteToolCalls(tools: map<string, Tool>, calls: seq<ToolCall>) returns (batch: Batch, ghost finalized: seq<Finalized>)
      requires Quiet() && Now().running == multiset{}
      modifies this`trace, this`state, this`executed, this`polls, this`peak
      ensures Quiet() && Now() == old(Now()).(running := Now().running) && (Calm() ==> Now().running == multiset{})
      ensures Calm() ==> batch == BatchOf(Outcomes(tools, hooks, calls))
      ensures M.Told(tools, hooks, calls, finalized, Calm()) && M.Shows(finalized, batch.messages, batch.terminate)
      ensures Completed() == old(Completed()) + batch.messages
      ensures old(executed) <= executed && M.Executes(tools, hooks, calls, executed[|old(executed)|..], Calm())
      ensures M.MustTakeTurns(tools, hooks, calls) || (Calm() && M.MayTakeTurns(tools, hooks, calls)) ==> peak <= Max(old(peak), 1)
      ensures Calm() && !M.MustTakeTurns(tools, hooks, calls) && !M.MayTakeTurns(tools, hooks, calls) ==>
                peak == Max(old(peak), |M.Running(tools, hooks, calls)|)
    {
      if StaticSequential(tools, hooks, calls) {
        assert M.MustTakeTurns(tools, hooks, calls);
        batch, finalized := ExecuteStaticSequential(tools, calls);
      } else {
        batch, finalized := ExecutePrepared(tools, calls);
      }
      if Calm() { SettledIsOutcomes(tools, hooks, calls, finalized); }
      M.BatchMeans(tools, hooks, calls, finalized, old(executed), executed, Calm());
    }
  }
}
