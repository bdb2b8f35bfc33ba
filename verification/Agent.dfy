/** The agent that owns the transcript and the two queues, and runs the loop one run at a time. */
module Agent {
  import opened Options
  import opened AgentEvents
  import opened ToolBatch
  import opened ToolScheduling
  import opened AgentLoop

  /** What the world does during a run: the answers of the model, what others enqueue, and when, if ever, the
      run is aborted. */
  datatype World = World(answers: seq<Answer>, arrivals: seq<Arrival>, abortAt: Option<nat>)

  datatype Failure = Busy | NothingToContinue | LastIsAssistant

  ghost predicate Plays(w: World) { forall i :: 0 <= i < |w.answers| ==> Sound(w.answers[i]) }

  /** What a stream of events says of the run that emitted it: it is well-formed, its completed messages are
      those the run returned, and, without an abort, no turn ended with a tool call pending. */
  ghost predicate Reports(trace: seq<Event>, before: AgentState, newMessages: seq<Message>, calm: bool) {
    && WellFormed(trace)
    && MessagesOf(trace) == newMessages
    && |trace| > 0 && trace[|trace| - 1] == AgentEnd(newMessages)
    && (calm ==> forall k :: 0 <= k < |trace| && trace[k].TurnEnd? ==> ReduceAll(before, trace[..k]).pending == {})
  }

  lemma ReportsWhenBalanced(trace: seq<Event>, before: AgentState, newMessages: seq<Message>, calm: bool)
    requires before.pending == {} && WellFormed(trace) && MessagesOf(trace) == newMessages
    requires |trace| > 0 && trace[|trace| - 1] == AgentEnd(newMessages)
    requires calm ==> !AdvanceAll(START, trace).leaked
    ensures Reports(trace, before, newMessages, calm)
  {
    if calm {
      forall k | 0 <= k < |trace| && trace[k].TurnEnd? ensures ReduceAll(before, trace[..k]).pending == {} {
        PendingEmptyAtTurnEnd(before, trace, k);
      }
    }
  }

  /** What a queue held and what was enqueued during a run is, in this order, what the run injected and what the
      queue still holds. */
  ghost predicate Flows(before: seq<Message>, enqueued: seq<Message>, injected: seq<Message>, after: seq<Message>) {
    before + enqueued == injected + after
  }

  lemma FlowsWhenCounted(taken: seq<Message>, before: seq<Message>, enqueued: seq<Message>, injected: seq<Message>, after: seq<Message>)
    requires taken + before + enqueued == taken + injected + after
    ensures Flows(before, enqueued, injected, after)
  {
    assert taken + before + enqueued == taken + (before + enqueued);
    assert taken + injected + after == taken + (injected + after);
    assert before + enqueued == (taken + (before + enqueued))[|taken|..];
    assert injected + after == (taken + (injected + after))[|taken|..];
  }

  /** How a run looks after the queues.  Its first turn injects what a look takes from the steering queue as it was found,
      with what arrived before that look, unless it is to skip that look; each later turn that no follow-up starts injects
      what a look takes.  If it ends because nothing more is asked for, the follow-up queue is empty, and the steering
      queue has only what arrived after the last look. */
  ghost predicate Listens(hooks: TurnHooks, mode: QueueMode, skip: bool, found: seq<Message>, records: seq<Record>, arrived: seq<Arrival>,
                          steering: seq<Message>, followUps: seq<Message>) {
    && records != [] && Attentive(mode, skip, found, records)
    && var last := records[|records| - 1];
    GoesOn(hooks, last.turn) ==>
      !last.hasMore && followUps == [] && (steering == [] || (arrived != [] && steering == arrived[|arrived| - 1].steering))
  }

  /** A concluded run has told its turns, and both queues flow through them. */
  lemma ConcludedFlows(loop: Loop, g: Setting, newMessages: seq<Message>, records: seq<Record>, book: Ledger,
                       steering: seq<Message>, followUps: seq<Message>)
    requires loop.Concluded(g, records, newMessages, book)
    requires loop.steeringBase == book.steered + steering && loop.followUpBase == book.followed + followUps
    ensures Told(g, records) && newMessages == g.prompts + Produced(records)
    ensures Flows(steering, SteeringOf(loop.arrived), InjectedFrom(records, FromSteering), loop.steering.messages)
    ensures Flows(followUps, FollowUpsOf(loop.arrived), InjectedFrom(records, FromFollowUp), loop.followUp.messages)
    ensures loop.arrived <= loop.given
    ensures Listens(loop.hooks, loop.steering.mode, loop.skipFirst, loop.opening, records, loop.arrived, loop.steering.messages, loop.followUp.messages)
  {
    LedgerAdds(book, records);
    FlowsWhenCounted(book.steered, steering, SteeringOf(loop.arrived), InjectedFrom(records, FromSteering), loop.steering.messages);
    FlowsWhenCounted(book.followed, followUps, FollowUpsOf(loop.arrived), InjectedFrom(records, FromFollowUp), loop.followUp.messages);
  }

  lemma FlowsFromPrompts(before: seq<Message>, enqueued: seq<Message>, prompts: seq<Message>, injected: seq<Message>, after: seq<Message>)
    requires Flows(before, enqueued, injected, after)
    ensures Flows(prompts + before, enqueued, prompts + injected, after)
  {
    assert prompts + before + enqueued == prompts + (before + enqueued);
    assert prompts + injected + after == prompts + (injected + after);
  }

  class Agent {
    var state: AgentState
    var active: bool
    const tools: map<string, Tool>
    const hooks: Hooks
    const turnHooks: TurnHooks
    const steering: PendingMessageQueue
    const followUp: PendingMessageQueue
    ghost var steered: seq<Message>
    ghost var followed: seq<Message>

    constructor (messages: seq<Message>, tools: map<string, Tool>, hooks: Hooks, turnHooks: TurnHooks, steeringMode: QueueMode,
                 followUpMode: QueueMode)
      ensures Valid() && fresh(steering) && fresh(followUp) && state.messages == messages
    {
      state := AgentState(messages, None, {}, None);
      active := false;
      this.tools, this.hooks, this.turnHooks := tools, hooks, turnHooks;
      steering := new PendingMessageQueue(steeringMode);
      followUp := new PendingMessageQueue(followUpMode);
      steered, followed := [], [];
    }

    /** Every message ever queued, and not cleared, was injected or is still queued, in order. */
    ghost predicate Conserved() reads this, steering, followUp {
      && steering != followUp
      && steering.accepted == steered + steering.messages
      && followUp.accepted == followed + followUp.messages
    }

    ghost predicate Valid() reads this, steering, followUp {
      Conserved() && Held([], Prompted)
    }

    method Steer(m: Message)
      requires Valid()
      modifies steering
      ensures Valid() && steering.messages == old(steering.messages) + [m] && steering.mode == old(steering.mode)
    {
      steering.Enqueue(m);
    }

    method FollowUp(m: Message)
      requires Valid()
      modifies followUp
      ensures Valid() && followUp.messages == old(followUp.messages) + [m] && followUp.mode == old(followUp.mode)
    {
      followUp.Enqueue(m);
    }

    /** Everything handed out by a queue has been injected, except for `messages`. */
    ghost predicate Held(messages: seq<Message>, from: Origin) reads this, steering, followUp {
      && steering != followUp && steering.Valid() && followUp.Valid() && state.pending == {}
      && steering.taken == steered + (if from.FromSteering? then messages else [])
      && followUp.taken == followed + (if from.FromFollowUp? then messages else [])
    }

    /** What a run with these prompts is given. */
    ghost function Given(w: World, before: seq<Message>, prompts: seq<Message>): Setting {
      Setting(w.answers, Context(before + prompts, tools), prompts, hooks, turnHooks, w.abortAt.None?)
    }

    method Begin(w: World, skip: bool, ghost prompts: seq<Message>, ghost from: Origin) returns (loop: Loop)
      requires Plays(w) && Held(prompts, from)
      modifies this`active, this`state
      ensures active && state == old(state).(streaming := None, error := None)
      ensures fresh(loop) && fresh(loop.runner) && loop.steering == steering && loop.followUp == followUp && loop.hooks == turnHooks
      ensures loop.Answers() && loop.Balanced(prompts, from) && loop.requests == [] && loop.script == w.answers
      ensures loop.runner.hooks == hooks && loop.given == w.arrivals == loop.arrivals && loop.arrived == []
      ensures loop.skipSteeringPoll == skip == loop.skipFirst
      ensures loop.steeringBase == steering.accepted && loop.followUpBase == followUp.accepted
      ensures loop.steered == steered && loop.followed == followed && loop.runner.executed == []
      ensures loop.runner.trace == [] && loop.runner.Valid() && loop.runner.origin == state && loop.runner.abortAt == w.abortAt
    {
      active := true;
      state := state.(streaming := None, error := None);
      var runner := new ToolRunner(hooks, w.abortAt, state);
      loop := new Loop(runner, steering, followUp, turnHooks, w.answers, w.arrivals, skip, steered, followed);
    }

    /** What a run that began with these queues leaves. */
    ghost predicate Settled(before: AgentState, newMessages: seq<Message>, trace: seq<Event>, calm: bool)
      reads this, steering, followUp
    {
      Valid() && !active && state.messages == before.messages + newMessages && Reports(trace, before, newMessages, calm)
    }

    method Finish(loop: Loop, newMessages: seq<Message>, ghost before: AgentState)
      requires loop.steering == steering && loop.followUp == followUp
      requires loop.Finished(newMessages) && loop.Balanced([], Prompted)
      requires loop.runner.origin == before && before.pending == {}
      modifies this
      ensures Settled(before, newMessages, loop.runner.trace, loop.runner.abortAt.None?)
    {
      TranscriptIsConserved(before, loop.runner.trace);
      ReportsWhenBalanced(loop.runner.trace, before, newMessages, loop.runner.abortAt.None?);
      state := loop.runner.state.(streaming := None, pending := {});
      steered, followed := loop.steered, loop.followed;
      active := false;
    }

    /** Runs the loop that `Begin` has set up; `prompts` are injected first. */
    method RunPrompts(loop: Loop, prompts: seq<Message>, ghost from: Origin)
      returns (newMessages: seq<Message>, ghost records: seq<Record>)
      requires loop.steering == steering && loop.followUp == followUp && loop.hooks == turnHooks && loop.runner.hooks == hooks
      requires loop.runner.trace == [] && loop.runner.Valid() && loop.runner.origin == state && state.pending == {}
      requires loop.Answers() && loop.Balanced(prompts, from) && loop.skipSteeringPoll == loop.skipFirst
      modifies this, steering, followUp, loop, loop.runner
      ensures steering.mode == old(steering.mode) && loop.opening == old(steering.messages) + SteeringOf(Arriving(old(loop.arrivals)))
      ensures Settled(old(state), newMessages, loop.runner.trace, loop.runner.abortAt.None?)
      ensures loop.Concluded(Setting(old(loop.script), Context(old(state).messages + prompts, tools), prompts, hooks, turnHooks, loop.runner.Calm()),
                             records, newMessages, EnterPrompts(old(loop.Book()), prompts, from))
    {
      ghost var before := state;
      newMessages, records := loop.RunAgentLoop(prompts, Context(state.messages, tools), from);
      ghost var p := loop.Here();
      Finish(loop, newMessages, before);
      assert loop.Here() == p;
    }

    /** The same without prompts. */
    method RunOn(loop: Loop) returns (newMessages: seq<Message>, ghost records: seq<Record>)
      requires loop.steering == steering && loop.followUp == followUp && loop.hooks == turnHooks && loop.runner.hooks == hooks
      requires loop.runner.trace == [] && loop.runner.Valid() && loop.runner.origin == state && state.pending == {}
      requires loop.Answers() && loop.Balanced([], Prompted) && loop.skipSteeringPoll == loop.skipFirst
      modifies this, steering, followUp, loop, loop.runner
      ensures steering.mode == old(steering.mode) && loop.opening == old(steering.messages) + SteeringOf(Arriving(old(loop.arrivals)))
      ensures Settled(old(state), newMessages, loop.runner.trace, loop.runner.abortAt.None?)
      ensures loop.Concluded(Setting(old(loop.script), Context(old(state).messages, tools), [], hooks, turnHooks, loop.runner.Calm()),
                             records, newMessages, old(loop.Book()))
    {
      ghost var before := state;
      newMessages, records := loop.RunAgentLoopContinue(Context(state.messages, tools));
      ghost var p := loop.Here();
      Finish(loop, newMessages, before);
      assert loop.Here() == p;
    }

    method RunPromptMessages(prompts: seq<Message>, skip: bool, w: World, ghost from: Origin)
      returns (newMessages: seq<Message>, trace: seq<Event>, ghost records: seq<Record>, ghost arrived: seq<Arrival>)
      requires Plays(w) && Held(prompts, from)
      modifies this, steering, followUp
      ensures Settled(old(state).(streaming := None, error := None), newMessages, trace, w.abortAt.None?)
      ensures arrived <= w.arrivals
      ensures Flows(old(steering.messages), SteeringOf(arrived), InjectedFrom(records, FromSteering), steering.messages)
      ensures Flows(old(followUp.messages), FollowUpsOf(arrived), InjectedFrom(records, FromFollowUp), followUp.messages)
      ensures Told(Given(w, old(state).messages, prompts), records) && newMessages == prompts + Produced(records)
      ensures Listens(turnHooks, steering.mode, skip, old(steering.messages) + SteeringOf(Arriving(w.arrivals)), records, arrived,
                      steering.messages, followUp.messages)
      ensures steering.mode == old(steering.mode)
    {
      var loop := Begin(w, skip, prompts, from);
      ghost var book := EnterPrompts(loop.Book(), prompts, from);
      assert book.steered == steering.taken && book.followed == followUp.taken;
      newMessages, records := RunPrompts(loop, prompts, from);
      arrived := loop.arrived;
      ConcludedFlows(loop, Given(w, old(state).messages, prompts), newMessages, records, book, old(steering.messages), old(followUp.messages));
      trace := loop.runner.trace;
    }

    method RunContinuation(w: World)
      returns (newMessages: seq<Message>, trace: seq<Event>, ghost records: seq<Record>, ghost arrived: seq<Arrival>)
      requires Plays(w) && Valid()
      modifies this, steering, followUp
      ensures Settled(old(state).(streaming := None, error := None), newMessages, trace, w.abortAt.None?)
      ensures arrived <= w.arrivals
      ensures Flows(old(steering.messages), SteeringOf(arrived), InjectedFrom(records, FromSteering), steering.messages)
      ensures Flows(old(followUp.messages), FollowUpsOf(arrived), InjectedFrom(records, FromFollowUp), followUp.messages)
      ensures Told(Given(w, old(state).messages, []), records) && newMessages == Produced(records)
      ensures Listens(turnHooks, steering.mode, false, old(steering.messages) + SteeringOf(Arriving(w.arrivals)), records, arrived,
                      steering.messages, followUp.messages)
      ensures steering.mode == old(steering.mode)
    {
      var loop := Begin(w, false, [], Prompted);
      ghost var book := loop.Book();
      assert book.steered == steering.taken && book.followed == followUp.taken;
      assert state.messages + [] == state.messages;
      newMessages, records := RunOn(loop);
      arrived := loop.arrived;
      ConcludedFlows(loop, Given(w, old(state).messages, []), newMessages, records, book, old(steering.messages), old(followUp.messages));
      trace := loop.runner.trace;
    }

    /** Refused while a run is active.  The new messages are the prompts and what the turns injected, answered and
        ran; of each queue, what it held and what was enqueued was injected by those turns or is still queued. */
    method Prompt(messages: seq<Message>, w: World)
      returns (r: Result<seq<Message>, Failure>, trace: seq<Event>, ghost records: seq<Record>, ghost arrived: seq<Arrival>)
      requires Plays(w) && Valid()
      modifies this, steering, followUp
      ensures Valid() && (r.Err? <==> old(active))
      ensures r.Err? ==> r.error == Busy && state == old(state) && trace == []
      ensures r.Ok? ==> state.messages == old(state).messages + r.value
      ensures r.Ok? ==> Told(Given(w, old(state).messages, messages), records) && r.value == messages + Produced(records)
      ensures r.Ok? ==> Reports(trace, old(state).(streaming := None, error := None), r.value, w.abortAt.None?)
      ensures r.Ok? ==> Listens(turnHooks, old(steering.mode), false, old(steering.messages) + SteeringOf(Arriving(w.arrivals)), records, arrived,
                                steering.messages, followUp.messages)
      ensures r.Ok? ==> arrived <= w.arrivals
      ensures r.Ok? ==> Flows(old(steering.messages), SteeringOf(arrived), InjectedFrom(records, FromSteering), steering.messages)
      ensures r.Ok? ==> Flows(old(followUp.messages), FollowUpsOf(arrived), InjectedFrom(records, FromFollowUp), followUp.messages)
    {
      if active { return Err(Busy), [], [], []; }
      var newMessages;
      newMessages, trace, records, arrived := RunPromptMessages(messages, false, w, Prompted);
      r := Ok(newMessages);
    }

    /** Goes on from the transcript; after an answer of the model, only with queued messages, which are then the
        prompts. */
    method Continue(w: World)
      returns (r: Result<seq<Message>, Failure>, trace: seq<Event>, ghost prompts: seq<Message>, ghost from: Origin,
               ghost records: seq<Record>, ghost arrived: seq<Arrival>)
      requires Plays(w) && Valid()
      modifies this, steering, followUp
      ensures Valid()
      ensures r.Err? <==> old(active) || old(state).messages == [] ||
                          (old(state).messages[|old(state).messages| - 1].Assistant? && old(steering.messages) == [] == old(followUp.messages))
      ensures r.Err? ==> state == old(state) && trace == []
      ensures r.Ok? ==> state.messages == old(state).messages + r.value
      ensures r.Ok? ==> Reports(trace, old(state).(streaming := None, error := None), r.value, w.abortAt.None?)
      ensures r.Ok? ==> Told(Given(w, old(state).messages, prompts), records) && r.value == prompts + Produced(records)
      ensures r.Ok? && old(state).messages[|old(state).messages| - 1].Assistant? ==>
                |prompts| > 0 && from == (if old(steering.messages) != [] then FromSteering else FromFollowUp)
      ensures r.Ok? && !old(state).messages[|old(state).messages| - 1].Assistant? ==> prompts == [] && from == Prompted
      ensures r.Ok? && from.FromFollowUp? ==>
                prompts <= old(followUp.messages) && Took(old(followUp.mode), prompts, old(followUp.messages)[|prompts|..])
      ensures r.Ok? ==> exists rest: seq<Message> ::
                && (if from.FromSteering? then old(steering.messages) == prompts + rest && Took(old(steering.mode), prompts, rest)
                    else rest == old(steering.messages))
                && Listens(turnHooks, old(steering.mode), from.FromSteering?, rest + SteeringOf(Arriving(w.arrivals)), records, arrived,
                           steering.messages, followUp.messages)
      ensures r.Ok? ==> arrived <= w.arrivals
      ensures r.Ok? ==> Flows(old(steering.messages), SteeringOf(arrived),
                              if from.FromSteering? then prompts + InjectedFrom(records, FromSteering) else InjectedFrom(records, FromSteering),
                              steering.messages)
      ensures r.Ok? ==> Flows(old(followUp.messages), FollowUpsOf(arrived),
                              if from.FromFollowUp? then prompts + InjectedFrom(records, FromFollowUp) else InjectedFrom(records, FromFollowUp),
                              followUp.messages)
    {
      prompts, from, records, arrived := [], Prompted, [], [];
      if active { return Err(Busy), [], [], Prompted, [], []; }
      if state.messages == [] { return Err(NothingToContinue), [], [], Prompted, [], []; }
      var newMessages;
      if state.messages[|state.messages| - 1].Assistant? {
        var queuedSteering := steering.Drain();
        if |queuedSteering| > 0 {
          label Steered:
          ghost var rest := steering.messages;
          newMessages, trace, records, arrived := RunPromptMessages(queuedSteering, true, w, FromSteering);
          FlowsFromPrompts(old@Steered(steering.messages), SteeringOf(arrived), queuedSteering, InjectedFrom(records, FromSteering), steering.messages);
          assert old(steering.messages) == queuedSteering + rest && Took(old(steering.mode), queuedSteering, rest);
          return Ok(newMessages), trace, queuedSteering, FromSteering, records, arrived;
        }
        var queuedFollowUps := followUp.Drain();
        if |queuedFollowUps| > 0 {
          label Followed:
          newMessages, trace, records, arrived := RunPromptMessages(queuedFollowUps, false, w, FromFollowUp);
          FlowsFromPrompts(old@Followed(followUp.messages), FollowUpsOf(arrived), queuedFollowUps, InjectedFrom(records, FromFollowUp), followUp.messages);
          return Ok(newMessages), trace, queuedFollowUps, FromFollowUp, records, arrived;
        }
        return Err(LastIsAssistant), [], [], Prompted, [], [];
      }
      newMessages, trace, records, arrived := RunContinuation(w);
      r := Ok(newMessages);
    }
  }
}
