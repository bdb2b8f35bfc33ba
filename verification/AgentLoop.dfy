/** The agent loop: turns of model answers and tool batches, fed from a steering and a follow-up queue. */
module AgentLoop {
  import opened Options
  import opened AgentEvents
  import opened ToolBatch
  import opened ToolScheduling
  import M = ToolMeaning

  datatype QueueMode = All | OneAtATime

  class PendingMessageQueue {
    var messages: seq<Message>
    var mode: QueueMode
    /** Everything enqueued and not cleared, and the part of it already handed out. */
    ghost var accepted: seq<Message>
    ghost var taken: seq<Message>

    constructor (mode: QueueMode)
      ensures Valid() && this.mode == mode && messages == [] && taken == []
    {
      this.mode := mode;
      messages, accepted, taken := [], [], [];
    }

    ghost predicate Valid() reads this { accepted == taken + messages }

    method Enqueue(m: Message)
      requires Valid()
      modifies this`messages, this`accepted
      ensures Valid() && messages == old(messages) + [m] && accepted == old(accepted) + [m]
    {
      messages := messages + [m];
      accepted := accepted + [m];
    }

    /** Hands out, oldest first, everything or one message. */
    method Drain() returns (drained: seq<Message>)
      requires Valid()
      modifies this`messages, this`taken
      ensures Valid() && old(messages) == drained + messages && taken == old(taken) + drained
      ensures |drained| == if old(messages) == [] then 0 else if mode.All? then |old(messages)| else 1
    {
      if mode.All? {
        drained := messages;
        messages := [];
      } else if messages == [] {
        drained := [];
      } else {
        drained := [messages[0]];
        messages := messages[1..];
      }
      taken := taken + drained;
    }

    method Clear()
      requires Valid()
      modifies this`messages, this`accepted
      ensures Valid() && messages == [] && accepted == taken
    {
      messages := [];
      accepted := taken;
    }
  }

  datatype Context = Context(messages: seq<Message>, tools: map<string, Tool>)

  datatype StreamEvent = Start(partial: Message) | Delta(partial: Message) | Done

  /** One answer of the model: the events streamed, and the final message. */
  datatype Answer = Answer(events: seq<StreamEvent>, final: Message)

  /** A provider starts a message at most once. */
  ghost predicate Sound(a: Answer) {
    && a.final.Assistant?
    && forall i, j :: 0 <= i < j < |a.events| && a.events[i].Start? ==> !a.events[j].Start?
  }

  /** With no answer left, the provider reports an error. */
  function Unanswered(): Answer { Answer([], Assistant("", [], Errored, Some("no answer"))) }

  datatype Arrival = Arrival(steering: seq<Message>, followUp: seq<Message>)

  datatype Turn = Turn(message: Message, results: seq<Message>, context: Context, newMessages: seq<Message>)

  datatype TurnHooks = TurnHooks(prepareNext: Option<Turn -> Option<Context>>, shouldStop: Option<Turn -> bool>)

  /** Where messages on their way into the conversation come from. */
  datatype Origin = Prompted | FromSteering | FromFollowUp

  lemma SplitAt(messages: seq<Message>, i: nat)
    requires i < |messages|
    ensures messages[..i + 1] == messages[..i] + [messages[i]] && messages[i..] == [messages[i]] + messages[i + 1..]
  {
  }

  /** What was enqueued while a run was going on. */
  function SteeringOf(arrivals: seq<Arrival>): seq<Message> {
    if arrivals == [] then [] else SteeringOf(arrivals[..|arrivals| - 1]) + arrivals[|arrivals| - 1].steering
  }

  function FollowUpsOf(arrivals: seq<Arrival>): seq<Message> {
    if arrivals == [] then [] else FollowUpsOf(arrivals[..|arrivals| - 1]) + arrivals[|arrivals| - 1].followUp
  }

  /** What arrives before the next look. */
  function Arriving(arrivals: seq<Arrival>): seq<Arrival> { if arrivals == [] then [] else [] + [arrivals[0]] }

  lemma ArrivalsGrow(arrivals: seq<Arrival>, a: Arrival)
    ensures SteeringOf(arrivals + [a]) == SteeringOf(arrivals) + a.steering
    ensures FollowUpsOf(arrivals + [a]) == FollowUpsOf(arrivals) + a.followUp
  {
    assert (arrivals + [a])[..|arrivals|] == arrivals;
  }

  // ----- the story of a run -----

  /** What a run is given. */
  datatype Setting = Setting(script: seq<Answer>, initial: Context, prompts: seq<Message>, toolHooks: Hooks, hooks: TurnHooks, calm: bool)

  /** One turn: the context it found, the messages it injected and where they came from, what it came to, whether
      its tools ask for another, the calls that were executed, and what the last look at the steering queue left there. */
  datatype Record = Record(before: Context, pending: seq<Message>, from: Origin, turn: Turn, hasMore: bool, ran: seq<ToolCall>, left: seq<Message>)

  /** A look at a queue takes everything, or the oldest message if there is one. */
  predicate Took(mode: QueueMode, taken: seq<Message>, left: seq<Message>) {
    match mode
    case All => left == []
    case OneAtATime => |taken| <= 1 && (taken == [] ==> left == [])
  }

  /** The first turn injects what the first look took from the `opening` queue, unless that look was to be skipped; and
      every later turn that no follow-up starts injects what a look took. */
  ghost predicate Attentive(mode: QueueMode, skip: bool, opening: seq<Message>, records: seq<Record>) {
    forall n :: 0 <= n < |records| ==> Looked(mode, skip, opening, n, records[n])
  }

  ghost predicate Looked(mode: QueueMode, skip: bool, opening: seq<Message>, n: nat, r: Record) {
    && (r.from.FromSteering? || (r.from.FromFollowUp? && n > 0))
    && (n == 0 ==> r.pending + r.left == opening && (skip ==> r.pending == []))
    && (r.from.FromSteering? && (n > 0 || !skip) ==> Took(mode, r.pending, r.left))
  }

  lemma AttentiveGrows(mode: QueueMode, skip: bool, opening: seq<Message>, records: seq<Record>, r: Record)
    requires Attentive(mode, skip, opening, records) && Looked(mode, skip, opening, |records|, r)
    ensures Attentive(mode, skip, opening, records + [r])
  {
  }

  function Nth(script: seq<Answer>, k: nat): Answer { if k < |script| then script[k] else Unanswered() }

  function Rest(script: seq<Answer>, k: nat): seq<Answer> { if k <= |script| then script[k..] else [] }

  predicate Ends(m: Message) { m.Assistant? && (m.stop.Errored? || m.stop.Aborted?) }

  /** The context of the next turn, which a hook may have replaced. */
  function Next(hooks: TurnHooks, turn: Turn): Context {
    if hooks.prepareNext.Some? && hooks.prepareNext.value(turn).Some? then hooks.prepareNext.value(turn).value else turn.context
  }

  predicate Stops(hooks: TurnHooks, turn: Turn) {
    hooks.shouldStop.Some? && hooks.shouldStop.value(turn.(context := Next(hooks, turn)))
  }

  predicate GoesOn(hooks: TurnHooks, turn: Turn) { !Ends(turn.message) && !Stops(hooks, turn) }

  /** A turn adds what was pending, the answer and the results; undisturbed, the results and whether there is
      more to do depend on the answer alone. */
  ghost predicate Makes(toolHooks: Hooks, calm: bool, r: Record) {
    var t := r.turn;
    && t.message.Assistant?
    && t.context == r.before.(messages := r.before.messages + r.pending + [t.message] + t.results)
    && (Ends(t.message) ==> t.results == [])
    && (calm ==> t.results == Response(r.before.tools, toolHooks, t.message).messages)
    && (calm && !Ends(t.message) ==> r.hasMore == !Response(r.before.tools, toolHooks, t.message).terminate)
    && Runs(r.before.tools, toolHooks, t.message, r.ran, calm)
  }

  /** The results of an answer, the calls that were executed for it, and whether its tools ask for another.  One that
      failed has none; of one that was cut off every call is refused and none is executed; for any other the calls that
      run are executed, and every call has its own result. */
  ghost predicate Responds(tools: map<string, Tool>, toolHooks: Hooks, m: Message, results: seq<Message>, hasMore: bool, ran: seq<ToolCall>, calm: bool) {
    && m.Assistant?
    && if Ends(m) || m.calls == [] then results == [] && !hasMore && ran == []
       else if m.stop.Length? then hasMore && ran == [] && CutOff(m.calls, results)
       else Answered(tools, toolHooks, m.calls, results, !hasMore, ran, calm)
  }

  /** Of that, which calls are executed. */
  ghost predicate Runs(tools: map<string, Tool>, toolHooks: Hooks, m: Message, ran: seq<ToolCall>, calm: bool) {
    m.Assistant? && if Ends(m) || m.stop.Length? || m.calls == [] then ran == [] else M.Executes(tools, toolHooks, m.calls, ran, calm)
  }

  lemma RespondsRuns(tools: map<string, Tool>, toolHooks: Hooks, m: Message, results: seq<Message>, hasMore: bool, ran: seq<ToolCall>, calm: bool)
    requires Responds(tools, toolHooks, m, results, hasMore, ran, calm)
    ensures Runs(tools, toolHooks, m, ran, calm)
  {
  }

  /** Undisturbed, a turn of the story has the results that its answer, the tools and the hooks give. */
  lemma CalmTurnResponds(toolHooks: Hooks, r: Record)
    requires Makes(toolHooks, true, r) && !Ends(r.turn.message)
    ensures Responds(r.before.tools, toolHooks, r.turn.message, r.turn.results, r.hasMore, r.ran, true)
  {
    var tools, m := r.before.tools, r.turn.message;
    if m.calls != [] && !m.stop.Length? {
      var finalized := Outcomes(tools, toolHooks, m.calls);
      M.OutcomesAreTold(tools, toolHooks, m.calls);
      M.BatchShows(finalized);
      assert Answered(tools, toolHooks, m.calls, r.turn.results, !r.hasMore, r.ran, true);
    }
  }

  ghost predicate CutOff(calls: seq<ToolCall>, results: seq<Message>) {
    && |results| == |calls|
    && forall i :: 0 <= i < |calls| ==> results[i] == ToolResult(calls[i].id, calls[i].name, TruncatedOutput(calls[i]).content, true)
  }

  ghost predicate Answered(tools: map<string, Tool>, toolHooks: Hooks, calls: seq<ToolCall>, results: seq<Message>, terminate: bool,
                           ran: seq<ToolCall>, calm: bool) {
    && M.Executes(tools, toolHooks, calls, ran, calm)
    && exists finalized :: M.Told(tools, toolHooks, calls, finalized, calm) && M.Shows(finalized, results, terminate)
  }

  function Produced(records: seq<Record>): seq<Message> {
    if records == [] then []
    else
      var r := records[|records| - 1];
      Produced(records[..|records| - 1]) + r.pending + [r.turn.message] + r.turn.results
  }

  /** What the model was sent, turn by turn. */
  function RequestsOf(records: seq<Record>): seq<seq<Message>> {
    if records == [] then []
    else
      var r := records[|records| - 1];
      RequestsOf(records[..|records| - 1]) + [r.before.messages + r.pending]
  }

  /** What was injected from one of the queues. */
  function InjectedFrom(records: seq<Record>, from: Origin): seq<Message> {
    if records == [] then []
    else
      var r := records[|records| - 1];
      InjectedFrom(records[..|records| - 1], from) + if r.from == from then r.pending else []
  }

  function ExecutedIn(records: seq<Record>): seq<ToolCall> {
    if records == [] then [] else ExecutedIn(records[..|records| - 1]) + records[|records| - 1].ran
  }

  /** The requests made, the messages injected from each queue and the calls executed. */
  datatype Ledger = Ledger(requests: seq<seq<Message>>, steered: seq<Message>, followed: seq<Message>, executed: seq<ToolCall>)

  function Enter(l: Ledger, r: Record): Ledger {
    Ledger(l.requests + [r.before.messages + r.pending],
           if r.from.FromSteering? then l.steered + r.pending else l.steered,
           if r.from.FromFollowUp? then l.followed + r.pending else l.followed,
           l.executed + r.ran)
  }

  /** Prompts that come from a queue are injected before the first turn. */
  function EnterPrompts(l: Ledger, prompts: seq<Message>, from: Origin): Ledger {
    l.(steered := if from.FromSteering? then l.steered + prompts else l.steered,
       followed := if from.FromFollowUp? then l.followed + prompts else l.followed)
  }

  function LedgerAfter(l: Ledger, records: seq<Record>): Ledger {
    if records == [] then l else Enter(LedgerAfter(l, records[..|records| - 1]), records[|records| - 1])
  }

  lemma {:induction false} LedgerAdds(l: Ledger, records: seq<Record>)
    ensures LedgerAfter(l, records) ==
            Ledger(l.requests + RequestsOf(records), l.steered + InjectedFrom(records, FromSteering),
                   l.followed + InjectedFrom(records, FromFollowUp), l.executed + ExecutedIn(records))
  {
    if records != [] {
      LedgerAdds(l, records[..|records| - 1]);
    }
  }

  function ContextAfter(g: Setting, records: seq<Record>): Context {
    if records == [] then g.initial else Next(g.hooks, records[|records| - 1].turn)
  }

  /** `r` is the turn that comes after `front`: it uses the next answer and the context left by the turn before,
      which neither ended the run nor was stopped by a hook, and which book for more unless messages came in. */
  ghost predicate Follows(g: Setting, front: seq<Record>, r: Record) {
    && Makes(g.toolHooks, g.calm, r)
    && r.turn.message == Nth(g.script, |front|).final
    && r.before == ContextAfter(g, front)
    && r.turn.newMessages == g.prompts + Produced(front) + r.pending + [r.turn.message] + r.turn.results
    && (front != [] ==> var last := front[|front| - 1]; GoesOn(g.hooks, last.turn) && (last.hasMore || r.pending != []))
  }

  ghost predicate Told(g: Setting, records: seq<Record>)
    decreases |records|
  {
    records != [] ==> Told(g, records[..|records| - 1]) && Follows(g, records[..|records| - 1], records[|records| - 1])
  }

  lemma ToldGrows(g: Setting, records: seq<Record>, r: Record)
    requires Told(g, records) && Follows(g, records, r)
    ensures Told(g, records + [r])
    ensures Produced(records + [r]) == Produced(records) + r.pending + [r.turn.message] + r.turn.results
  {
    assert (records + [r])[..|records|] == records;
  }

  lemma AnswersInTurn(script: seq<Answer>, k: nat)
    ensures var rest := Rest(script, k);
            && (if rest == [] then Unanswered() else rest[0]) == Nth(script, k)
            && (if rest == [] then [] else rest[1..]) == Rest(script, k + 1)
  {
  }

  /** Where a run stands after `records`. */
  ghost predicate Stands(g: Setting, records: seq<Record>, context: Context, newMessages: seq<Message>, script: seq<Answer>) {
    && Told(g, records)
    && context == ContextAfter(g, records)
    && newMessages == g.prompts + Produced(records)
    && script == Rest(g.script, |records|)
  }

  /** The last turn lets the run go on, and asks for more or is followed by messages. */
  ghost predicate Another(hooks: TurnHooks, records: seq<Record>, pending: seq<Message>) {
    records != [] ==> var last := records[|records| - 1]; GoesOn(hooks, last.turn) && (last.hasMore || pending != [])
  }

  lemma StandsOn(g: Setting, records: seq<Record>, r: Record, newMessages: seq<Message>, script: seq<Answer>)
    requires Stands(g, records, r.before, newMessages, script) && Another(g.hooks, records, r.pending)
    requires Makes(g.toolHooks, g.calm, r)
    requires r.turn.message == (if script == [] then Unanswered() else script[0]).final
    requires r.turn.newMessages == newMessages + r.pending + [r.turn.message] + r.turn.results
    ensures Stands(g, records + [r], Next(g.hooks, r.turn), r.turn.newMessages, if script == [] then [] else script[1..])
  {
    AnswersInTurn(g.script, |records|);
    ToldGrows(g, records, r);
    Appends(g.prompts, Produced(records), r.pending, r.turn.message, r.turn.results);
    assert (records + [r])[|records|] == r;
  }

  lemma LedgerGrows(l: Ledger, records: seq<Record>, r: Record)
    ensures LedgerAfter(l, records + [r]) == Enter(LedgerAfter(l, records), r)
  {
    assert (records + [r])[..|records|] == records;
  }

  /** Both at once, for a turn that used `script` up to `rest`. */
  lemma TurnGrows(g: Setting, records: seq<Record>, r: Record, newMessages: seq<Message>, script: seq<Answer>, rest: seq<Answer>,
                  book: Ledger, before: Ledger, after: Ledger)
    returns (more: seq<Record>)
    requires Stands(g, records, r.before, newMessages, script) && Another(g.hooks, records, r.pending)
    requires Makes(g.toolHooks, g.calm, r)
    requires r.turn.message == (if script == [] then Unanswered() else script[0]).final
    requires r.turn.newMessages == newMessages + r.pending + [r.turn.message] + r.turn.results
    requires rest == if script == [] then [] else script[1..]
    requires before == LedgerAfter(book, records) && after == Enter(before, r)
    ensures Stands(g, more, Next(g.hooks, r.turn), r.turn.newMessages, rest) && after == LedgerAfter(book, more)
    ensures |more| == |records| + 1 && more[|records|] == r && more == records + [r]
  {
    more := records + [r];
    StandsOn(g, records, r, newMessages, script);
    LedgerGrows(book, records, r);
  }

  lemma Appends(prompts: seq<Message>, produced: seq<Message>, pending: seq<Message>, message: Message, results: seq<Message>)
    ensures prompts + (produced + pending + [message] + results) == prompts + produced + pending + [message] + results
  {
  }

  lemma ContextGrows(g: Setting, front: seq<Record>, r: Record)
    requires Follows(g, front, r) && g.hooks.prepareNext.None?
    requires ContextAfter(g, front).messages == g.initial.messages + Produced(front)
    ensures Next(g.hooks, r.turn).messages == g.initial.messages + (Produced(front) + r.pending + [r.turn.message] + r.turn.results)
  {
  }

  lemma {:induction false} ContextIsTranscript(g: Setting, records: seq<Record>)
    requires Told(g, records) && g.hooks.prepareNext.None?
    ensures ContextAfter(g, records).messages == g.initial.messages + Produced(records)
    decreases |records|
  {
    if records != [] {
      var front := records[..|records| - 1];
      ContextIsTranscript(g, front);
      ContextGrows(g, front, records[|records| - 1]);
    }
  }

  /** Unless a hook replaces the context, every request contains the initial context and all that was produced
      before it. */
  lemma {:induction false} RequestIsTranscript(g: Setting, records: seq<Record>, k: nat)
    requires Told(g, records) && g.hooks.prepareNext.None? && k < |records|
    ensures records[k].before.messages == g.initial.messages + Produced(records[..k])
    decreases |records|
  {
    var front := records[..|records| - 1];
    if k < |front| {
      RequestIsTranscript(g, front, k);
      assert front[..k] == records[..k];
    } else {
      ContextIsTranscript(g, front);
    }
  }

  /** What is left of the script, the ledger, and how the steering queue is looked at and was found. */
  datatype Point = Point(script: seq<Answer>, ledger: Ledger, mode: QueueMode, skip: bool, opening: seq<Message>)

  /** Where a run stands after `records`, with `book` the ledger before it. */
  ghost predicate At(g: Setting, records: seq<Record>, context: Context, newMessages: seq<Message>, book: Ledger, p: Point) {
    && Attentive(p.mode, p.skip, p.opening, records)
    && Stands(g, records, context, newMessages, p.script)
    && p.ledger == LedgerAfter(book, records)
  }

  lemma AtStart(g: Setting, p: Point)
    requires p.script == g.script
    ensures At(g, [], g.initial, g.prompts, p.ledger, p)
  {
    assert g.prompts + [] == g.prompts && Rest(g.script, 0) == g.script;
  }

  lemma AtGrows(g: Setting, records: seq<Record>, r: Record, newMessages: seq<Message>, book: Ledger, p: Point, q: Point) returns (more: seq<Record>)
    requires At(g, records, r.before, newMessages, book, p) && Another(g.hooks, records, r.pending)
    requires Looked(p.mode, p.skip, p.opening, |records|, r) && Makes(g.toolHooks, g.calm, r)
    requires r.turn.message == (if p.script == [] then Unanswered() else p.script[0]).final
    requires r.turn.newMessages == newMessages + r.pending + [r.turn.message] + r.turn.results
    requires q == p.(script := if p.script == [] then [] else p.script[1..], ledger := Enter(p.ledger, r))
    ensures At(g, more, Next(g.hooks, r.turn), r.turn.newMessages, book, q)
    ensures |more| == |records| + 1 && more[|records|] == r
  {
    AttentiveGrows(p.mode, p.skip, p.opening, records, r);
    more := TurnGrows(g, records, r, newMessages, p.script, q.script, book, p.ledger, q.ledger);
  }

  class Loop {
    const runner: ToolRunner
    const steering: PendingMessageQueue
    const followUp: PendingMessageQueue
    const hooks: TurnHooks
    /** The answers still to come, and the messages that others enqueue before each look at a queue. */
    var script: seq<Answer>
    var arrivals: seq<Arrival>
    var skipSteeringPoll: bool
    /** What has arrived, out of all that is to arrive, and what the queues had accepted before. */
    ghost var arrived: seq<Arrival>
    ghost const given: seq<Arrival>
    ghost const steeringBase: seq<Message>
    ghost const followUpBase: seq<Message>
    /** What was injected from each queue, and what each model request contained. */
    ghost var steered: seq<Message>
    ghost var followed: seq<Message>
    ghost var requests: seq<seq<Message>>
    /** Whether the first look at the steering queue is to be skipped, what that queue holds then, and what the last look
        left there. */
    ghost const skipFirst: bool
    ghost var opening: seq<Message>
    ghost var left: seq<Message>

    constructor (runner: ToolRunner, steering: PendingMessageQueue, followUp: PendingMessageQueue, hooks: TurnHooks,
                 script: seq<Answer>, arrivals: seq<Arrival>, skip: bool, ghost steered: seq<Message>, ghost followed: seq<Message>)
      ensures this.runner == runner && this.steering == steering && this.followUp == followUp && this.hooks == hooks
      ensures this.script == script && this.arrivals == arrivals && skipSteeringPoll == skip == skipFirst
      ensures this.steered == steered && this.followed == followed && requests == []
      ensures arrived == [] && given == arrivals && steeringBase == steering.accepted && followUpBase == followUp.accepted
    {
      this.runner, this.steering, this.followUp, this.hooks := runner, steering, followUp, hooks;
      this.script, this.arrivals, skipSteeringPoll, skipFirst := script, arrivals, skip, skip;
      opening, left := [], [];
      this.steered, this.followed, requests := steered, followed, [];
      arrived, given, steeringBase, followUpBase := [], arrivals, steering.accepted, followUp.accepted;
    }

    ghost predicate Answers() reads this`script { forall i :: 0 <= i < |script| ==> Sound(script[i]) }

    /** Everything handed out by a queue has been injected, except for `held`; and everything that has arrived was
        enqueued. */
    ghost predicate Balanced(held: seq<Message>, from: Origin)
      reads this`steered, this`followed, this`arrived, this`arrivals, steering, followUp
    {
      && steering != followUp && steering.Valid() && followUp.Valid()
      && steering.taken == steered + (if from.FromSteering? then held else [])
      && followUp.taken == followed + (if from.FromFollowUp? then held else [])
      && given == arrived + arrivals
      && steering.accepted == steeringBase + SteeringOf(arrived)
      && followUp.accepted == followUpBase + FollowUpsOf(arrived)
    }

    ghost function Book(): Ledger reads this`requests, this`steered, this`followed, runner`executed {
      Ledger(requests, steered, followed, runner.executed)
    }

    ghost predicate Ready() reads runner`trace, runner`state, runner`origin { runner.Quiet() && runner.Now().running == multiset{} }

    // ----- queues -----

    static method EnqueueAll(queue: PendingMessageQueue, messages: seq<Message>, ghost base: seq<Message>, ghost before: seq<Message>)
      requires queue.Valid() && queue.accepted == base + before
      modifies queue`messages, queue`accepted
      ensures queue.Valid() && queue.accepted == base + (before + messages) && queue.messages == old(queue.messages) + messages
    {
      for i := 0 to |messages|
        invariant queue.Valid() && queue.accepted == base + (before + messages[..i]) && queue.messages == old(queue.messages) + messages[..i]
      {
        queue.Enqueue(messages[i]);
        SplitAt(messages, i);
        assert base + (before + messages[..i]) + [messages[i]] == base + (before + messages[..i + 1]);
      }
      assert messages[..|messages|] == messages;
    }

    method Arrive(ghost held: seq<Message>, ghost from: Origin)
      requires Balanced(held, from)
      modifies this`arrivals, this`arrived, steering`messages, steering`accepted, followUp`messages, followUp`accepted
      ensures Balanced(held, from)
      ensures arrived == old(arrived) + Arriving(old(arrivals))
      ensures steering.messages == old(steering.messages) + SteeringOf(Arriving(old(arrivals)))
      ensures followUp.messages == old(followUp.messages) + FollowUpsOf(Arriving(old(arrivals)))
    {
      if arrivals != [] {
        EnqueueAll(steering, arrivals[0].steering, steeringBase, SteeringOf(arrived));
        EnqueueAll(followUp, arrivals[0].followUp, followUpBase, FollowUpsOf(arrived));
        ArrivalsGrow(arrived, arrivals[0]);
        ArrivalsGrow([], arrivals[0]);
        arrived := arrived + [arrivals[0]];
        arrivals := arrivals[1..];
      }
    }

    /** A look at the steering queue, unless it is to be skipped. */
    method GetSteeringMessages() returns (r: seq<Message>)
      requires Balanced([], Prompted)
      modifies this`arrivals, this`arrived, this`skipSteeringPoll, this`left
      modifies steering`messages, steering`accepted, steering`taken, followUp`messages, followUp`accepted
      ensures Balanced(r, FromSteering)
      ensures r + steering.messages == old(steering.messages) + SteeringOf(Arriving(old(arrivals)))
      ensures if old(skipSteeringPoll) then r == [] else Took(steering.mode, r, steering.messages)
      ensures !skipSteeringPoll && left == steering.messages
    {
      hide SteeringOf, FollowUpsOf, Arriving;
      Arrive([], Prompted);
      if skipSteeringPoll {
        skipSteeringPoll := false;
        r := [];
      } else {
        r := steering.Drain();
      }
      left := steering.messages;
    }

    /** And one at the follow-up queue. */
    method GetFollowUpMessages() returns (r: seq<Message>)
      requires Balanced([], Prompted)
      modifies this`arrivals, this`arrived, steering`messages, steering`accepted, followUp`messages, followUp`accepted, followUp`taken
      ensures Balanced(r, FromFollowUp)
      ensures r + followUp.messages == old(followUp.messages) + FollowUpsOf(Arriving(old(arrivals))) && Took(followUp.mode, r, followUp.messages)
      ensures r == [] ==> followUp.messages == []
      ensures arrived == old(arrived) + Arriving(old(arrivals))
      ensures steering.messages == old(steering.messages) + SteeringOf(Arriving(old(arrivals)))
    {
      hide SteeringOf, FollowUpsOf, Arriving;
      Arrive([], Prompted);
      r := followUp.Drain();
    }

    method EmitAll(messages: seq<Message>)
      requires Ready()
      modifies runner`trace, runner`state
      ensures Ready() && runner.Now() == old(runner.Now())
      ensures runner.Completed() == old(runner.Completed()) + messages
    {
      for i := 0 to |messages|
        invariant Ready() && runner.Now() == old(runner.Now())
        invariant runner.Completed() == old(runner.Completed()) + messages[..i]
      {
        SplitAt(messages, i);
        runner.EmitMessage(messages[i]);
      }
      assert messages[..|messages|] == messages;
    }

    method Inject(messages: seq<Message>, ghost from: Origin)
      requires Ready() && Balanced(messages, from)
      modifies this`steered, this`followed, runner`trace, runner`state
      ensures Ready() && runner.Now() == old(runner.Now())
      ensures runner.Completed() == old(runner.Completed()) + messages
      ensures Balanced([], Prompted)
      ensures Book() == EnterPrompts(old(Book()), messages, from)
    {
      EmitAll(messages);
      if from.FromSteering? { steered := steered + messages; }
      if from.FromFollowUp? { followed := followed + messages; }
    }

    // ----- one model request -----

    /** Every request is made with nothing held back: all that was drained has been injected. */
    method Request(context: Context) returns (answer: Answer)
      requires Answers() && Balanced([], Prompted)
      modifies this`script, this`requests
      ensures Answers() && Sound(answer)
      ensures old(script) == [] ==> answer == Unanswered() && script == []
      ensures old(script) != [] ==> answer == old(script)[0] && script == old(script)[1..]
      ensures requests == old(requests) + [context.messages]
    {
      requests := requests + [context.messages];
      if script == [] {
        answer := Unanswered();
      } else {
        answer := script[0];
        assert forall i :: 0 <= i < |script| - 1 ==> script[1..][i] == script[i + 1];
        script := script[1..];
      }
    }

    /** Streams the answer; the context ends with the partial message exactly when one was started. */
    method StreamEvents(answer: Answer, context: Context) returns (messages: seq<Message>, added: bool)
      requires Ready() && Sound(answer)
      modifies runner`trace, runner`state
      ensures runner.Valid() && runner.Now() == old(runner.Now()).(open := added)
      ensures runner.Completed() == old(runner.Completed())
      ensures context.messages <= messages && |messages| == |context.messages| + if added then 1 else 0
    {
      messages, added := context.messages, false;
      var k := 0;
      while k < |answer.events| && !answer.events[k].Done?
        invariant 0 <= k <= |answer.events|
        invariant runner.Valid() && runner.Now() == old(runner.Now()).(open := added)
        invariant runner.Completed() == old(runner.Completed())
        invariant context.messages <= messages && |messages| == |context.messages| + if added then 1 else 0
        invariant added ==> exists i :: 0 <= i < k && answer.events[i].Start?
        decreases |answer.events| - k
      {
        match answer.events[k] {
          case Start(partial) =>
            messages, added := messages + [partial], true;
            runner.Emit(MessageStart(partial));
          case Delta(partial) =>
            if added {
              messages := messages[..|messages| - 1] + [partial];
              runner.Emit(MessageUpdate(partial));
            }
        }
        k := k + 1;
      }
    }

    method StreamAssistantResponse(context: Context) returns (message: Message, context': Context)
      requires Ready() && Answers() && Balanced([], Prompted)
      modifies this`script, this`requests, runner`trace, runner`state
      ensures Ready() && Answers() && runner.Now() == old(runner.Now())
      ensures message == (if old(script) == [] then Unanswered() else old(script)[0]).final && message.Assistant?
      ensures script == if old(script) == [] then [] else old(script)[1..]
      ensures runner.Completed() == old(runner.Completed()) + [message]
      ensures context' == context.(messages := context.messages + [message])
      ensures requests == old(requests) + [context.messages]
    {
      var answer := Request(context);
      message := answer.final;
      var messages, added := StreamEvents(answer, context);
      if added {
        messages := messages[..|messages| - 1] + [message];
      } else {
        messages := messages + [message];
        runner.Emit(MessageStart(message));
      }
      runner.Emit(MessageEnd(message));
      context' := context.(messages := messages);
    }

    // ----- one turn -----

    /** The tool batch of a message: refused as a whole when the message was cut off. */
    method RunTools(context: Context, message: Message) returns (batch: Batch, ghost ran: seq<ToolCall>)
      requires Ready() && message.Assistant? && !Ends(message)
      modifies runner`trace, runner`state, runner`executed, runner`polls, runner`peak
      ensures runner.Quiet() && runner.Now() == old(runner.Now()).(running := runner.Now().running)
      ensures runner.Completed() == old(runner.Completed()) + batch.messages
      ensures runner.Calm() ==> Ready() && batch == Response(context.tools, runner.hooks, message)
      ensures runner.executed == old(runner.executed) + ran
      ensures Responds(context.tools, runner.hooks, message, batch.messages, message.calls != [] && !batch.terminate, ran, runner.Calm())
      ensures Runs(context.tools, runner.hooks, message, ran, runner.Calm())
    {
      if message.calls == [] {
        batch, ran := Batch([], true), [];
      } else if message.stop.Length? {
        batch := runner.FailTruncated(message.calls);
        ran := [];
      } else {
        ghost var finalized;
        batch, finalized := runner.ExecuteToolCalls(context.tools, message.calls);
        ran := runner.executed[|old(runner.executed)|..];
        assert Answered(context.tools, runner.hooks, message.calls, batch.messages, batch.terminate, ran, runner.Calm());
      }
      RespondsRuns(context.tools, runner.hooks, message, batch.messages, message.calls != [] && !batch.terminate, ran, runner.Calm());
    }

    /** Runs the tools of an answer and ends the turn. */
    method FinishTurn(before: Context, pending: seq<Message>, ghost from: Origin, ctx: Context, message: Message, added: seq<Message>)
      returns (hasMore: bool, turn: Turn, ghost r: Record)
      requires Ready() && message.Assistant? && runner.Completed() == added
      requires ctx == before.(messages := before.messages + pending + [message])
      modifies runner`trace, runner`state, runner`executed, runner`polls, runner`peak
      ensures runner.Valid() && turn.message == message
      ensures turn.newMessages == added + turn.results == runner.Completed()
      ensures r == Record(before, pending, from, turn, hasMore, r.ran, left) && Makes(runner.hooks, runner.Calm(), r)
      ensures runner.executed == old(runner.executed) + r.ran
      ensures Responds(before.tools, runner.hooks, message, turn.results, hasMore, r.ran, runner.Calm())
      ensures runner.Now() == old(runner.Now()).(stage := Between, turns := old(runner.Now()).turns + 1, leaked := runner.Now().leaked)
      ensures runner.Calm() ==> runner.Now().leaked == old(runner.Now()).leaked
    {
      if Ends(message) {
        runner.Emit(TurnEnd(message, []));
        hasMore, turn := false, Turn(message, [], ctx, added);
        r := Record(before, pending, from, turn, hasMore, [], left);
      } else {
        ghost var ran;
        var batch;
        batch, ran := RunTools(ctx, message);
        hasMore := message.calls != [] && !batch.terminate;
        turn := Turn(message, batch.messages, ctx.(messages := ctx.messages + batch.messages), added + batch.messages);
        runner.Emit(TurnEnd(message, batch.messages));
        r := Record(before, pending, from, turn, hasMore, ran, left);
      }
    }

    /** Injects what is pending, asks the model and runs its tools; the ledger gets exactly this turn's entry. */
    method RunTurn(context: Context, newMessages: seq<Message>, pending: seq<Message>, ghost from: Origin)
      returns (ended: bool, hasMore: bool, turn: Turn, ghost r: Record)
      requires Ready() && Answers() && Balanced(pending, from) && runner.Completed() == newMessages
      modifies this`script, this`requests, this`steered, this`followed
      modifies runner`trace, runner`state, runner`executed, runner`polls, runner`peak
      ensures runner.Valid() && Answers() && Balanced([], Prompted)
      ensures turn.message == (if old(script) == [] then Unanswered() else old(script)[0]).final
      ensures script == if old(script) == [] then [] else old(script)[1..]
      ensures ended <==> Ends(turn.message)
      ensures Responds(context.tools, runner.hooks, turn.message, turn.results, hasMore, r.ran, runner.Calm())
      ensures r == Record(context, pending, from, turn, hasMore, r.ran, left) && Makes(runner.hooks, runner.Calm(), r)
      ensures turn.newMessages == newMessages + pending + [turn.message] + turn.results == runner.Completed()
      ensures Book() == Enter(old(Book()), r)
      ensures runner.Now() == old(runner.Now()).(stage := Between, turns := old(runner.Now()).turns + 1, leaked := runner.Now().leaked)
      ensures runner.Calm() ==> runner.Now().leaked == old(runner.Now()).leaked
    {
      Inject(pending, from);
      var ctx := context.(messages := context.messages + pending);
      var message;
      message, ctx := StreamAssistantResponse(ctx);
      ended := Ends(message);
      hasMore, turn, r := FinishTurn(context, pending, from, ctx, message, newMessages + pending + [message]);
    }

    // ----- the run -----

    ghost predicate Finished(newMessages: seq<Message>) reads runner`trace, runner`state, runner`origin {
      && runner.Valid() && runner.Completed() == newMessages
      && WellFormed(runner.trace)
      && |runner.trace| > 0 && runner.trace[|runner.trace| - 1] == AgentEnd(newMessages)
      && (runner.Calm() ==> !runner.Now().leaked)
    }

    /** What holds each time the loop is about to take another turn: in the first turn it has begun already. */
    ghost predicate Head(firstTurn: bool, newMessages: seq<Message>) reads runner`trace, runner`state, runner`origin {
      && runner.Valid() && runner.Completed() == newMessages
      && !runner.Now().open && runner.Now().running == multiset{}
      && (firstTurn ==> runner.Now().stage.InTurn?)
      && (!firstTurn ==> runner.Now().stage.Between? && runner.Now().turns > 0)
      && (runner.Calm() ==> !runner.Now().leaked)
    }

    method End(newMessages: seq<Message>)
      requires Head(false, newMessages)
      modifies runner`trace, runner`state
      ensures Finished(newMessages)
    {
      runner.Emit(AgentEnd(newMessages));
    }

    method NextTurn(firstTurn: bool, newMessages: seq<Message>)
      requires Head(firstTurn, newMessages)
      modifies runner`trace, runner`state
      ensures Head(true, newMessages)
    {
      if !firstTurn { runner.Emit(TurnStart); }
    }

    /** The turn itself, begun if it has not begun yet. */
    method RunNextTurn(firstTurn: bool, context: Context, newMessages: seq<Message>, pending: seq<Message>, ghost from: Origin)
      returns (ended: bool, hasMore: bool, turn: Turn, ghost r: Record)
      requires Head(firstTurn, newMessages) && Answers() && Balanced(pending, from)
      modifies this`script, this`requests, this`steered, this`followed
      modifies runner`trace, runner`state, runner`executed, runner`polls, runner`peak
      ensures Head(false, turn.newMessages) && Answers() && Balanced([], Prompted)
      ensures turn.message == (if old(script) == [] then Unanswered() else old(script)[0]).final
      ensures script == if old(script) == [] then [] else old(script)[1..]
      ensures (ended <==> Ends(turn.message)) && (!ended ==> |script| < |old(script)|)
      ensures r.before == context && r.pending == pending && r.turn == turn && r.hasMore == hasMore && Makes(runner.hooks, runner.Calm(), r)
      ensures r.from == from && r.left == left
      ensures turn.newMessages == newMessages + pending + [turn.message] + turn.results
      ensures Book() == Enter(old(Book()), r)
    {
      NextTurn(firstTurn, newMessages);
      ended, hasMore, turn, r := RunTurn(context, newMessages, pending, from);
    }

    /** What of the loop a turn changes. */
    ghost function Here(): Point reads this`script, this`requests, this`steered, this`followed, this`opening, runner`executed, steering`mode {
      Point(script, Book(), steering.mode, skipFirst, opening)
    }

    /** What is fixed for the run. */
    ghost predicate Fits(g: Setting) { g.toolHooks == runner.hooks && g.hooks == hooks && g.calm == runner.Calm() }

    /** What the next turn is to inject: what the last look at the steering queue took, or a follow-up. */
    ghost predicate Due(records: seq<Record>, pending: seq<Message>, from: Origin) reads this`opening, this`left, steering`mode {
      && Another(hooks, records, pending)
      && (from.FromSteering? || (from.FromFollowUp? && records != []))
      && (records == [] ==> pending + left == opening && (skipFirst ==> pending == []))
      && (from.FromSteering? && (records != [] || !skipFirst) ==> Took(steering.mode, pending, left))
    }

    method TakeTurn(firstTurn: bool, context: Context, newMessages: seq<Message>, pending: seq<Message>, ghost from: Origin,
                    ghost g: Setting, ghost records: seq<Record>, ghost book: Ledger)
      returns (ended: bool, hasMore: bool, turn: Turn, ghost records': seq<Record>)
      requires Head(firstTurn, newMessages) && Answers() && Balanced(pending, from)
      requires Fits(g) && At(g, records, context, newMessages, book, Here()) && Due(records, pending, from)
      modifies this`script, this`requests, this`steered, this`followed
      modifies runner`trace, runner`state, runner`executed, runner`polls, runner`peak
      ensures Head(false, turn.newMessages) && Answers() && Balanced([], Prompted)
      ensures |records'| == |records| + 1 && records'[|records|].turn == turn && records'[|records|].hasMore == hasMore
      ensures Fits(g) && At(g, records', Next(hooks, turn), turn.newMessages, book, Here())
      ensures ended <==> Ends(turn.message)
      ensures !ended ==> |script| < |old(script)|
    {
      ghost var r;
      ghost var p := Here();
      ended, hasMore, turn, r := RunNextTurn(firstTurn, context, newMessages, pending, from);
      records' := AtGrows(g, records, r, newMessages, book, p, Here());
    }

    /** The next turn's context, and whether the run is to stop. */
    method AskHooks(turn: Turn) returns (context: Context, stop: bool)
      ensures context == Next(hooks, turn) && stop == Stops(hooks, turn)
    {
      context, stop := turn.context, false;
      if hooks.prepareNext.Some? {
        var next := hooks.prepareNext.value(turn);
        if next.Some? { context := next.value; }
      }
      if hooks.shouldStop.Some? {
        stop := hooks.shouldStop.value(turn.(context := context));
      }
    }

    /** After a turn the run ends, or the steering queue is looked at. */
    method EndOrPoll(over: bool, newMessages: seq<Message>) returns (pending: seq<Message>)
      requires Head(false, newMessages) && Answers() && Balanced([], Prompted) && !skipSteeringPoll
      modifies this`arrivals, this`arrived, this`skipSteeringPoll, this`left, runner`trace, runner`state
      modifies steering`messages, steering`accepted, steering`taken, followUp`messages, followUp`accepted
      ensures over ==> Finished(newMessages) && Balanced([], Prompted)
      ensures !over ==> Head(false, newMessages) && Answers() && Balanced(pending, FromSteering)
      ensures !over ==> Took(steering.mode, pending, left) && left == steering.messages
      ensures !skipSteeringPoll && Here() == old(Here())
    {
      pending := [];
      if over { End(newMessages); } else { pending := GetSteeringMessages(); }
    }

    /** One turn of the inner loop, with the hooks after it and the look at the steering queue. */
    method Step(firstTurn: bool, context: Context, newMessages: seq<Message>, pending: seq<Message>, ghost from: Origin,
                ghost g: Setting, ghost records: seq<Record>, ghost book: Ledger)
      returns (over: bool, hasMore: bool, context': Context, newMessages': seq<Message>, pending': seq<Message>, ghost records': seq<Record>)
      requires Head(firstTurn, newMessages) && Answers() && Balanced(pending, from)
      requires Fits(g) && At(g, records, context, newMessages, book, Here()) && Due(records, pending, from) && !skipSteeringPoll
      modifies this`script, this`requests, this`arrivals, this`arrived, this`skipSteeringPoll, this`steered, this`followed, this`left
      modifies runner`trace, runner`state, runner`executed, runner`polls, runner`peak
      modifies steering`messages, steering`accepted, steering`taken, followUp`messages, followUp`accepted
      ensures |records'| == |records| + 1 && records'[|records|].hasMore == hasMore
      ensures Fits(g) && At(g, records', Next(hooks, records'[|records|].turn), newMessages', book, Here())
      ensures over <==> !GoesOn(hooks, records'[|records|].turn)
      ensures over ==> Finished(newMessages') && Balanced([], Prompted)
      ensures !over ==> Head(false, newMessages') && Answers() && Balanced(pending', FromSteering) && |script| < |old(script)|
      ensures !over ==> context' == Next(hooks, records'[|records|].turn)
      ensures !over ==> Took(steering.mode, pending', left) && left == steering.messages && !skipSteeringPoll
    {
      var turn;
      over, hasMore, turn, records' := TakeTurn(firstTurn, context, newMessages, pending, from, g, records, book);
      newMessages', context', pending' := turn.newMessages, turn.context, [];
      if !over { context', over := AskHooks(turn); }
      pending' := EndOrPoll(over, newMessages');
    }

    /** A run is over when its last turn ended it or a hook stopped it, or when that turn asks for nothing more and
        no follow-up is queued. */
    ghost predicate Over(records: seq<Record>) reads followUp`messages {
      records != [] && var last := records[|records| - 1]; !GoesOn(hooks, last.turn) || (!last.hasMore && followUp.messages == [])
    }

    /** A run that ends because nothing more is asked for leaves in the steering queue only what arrived after the last look. */
    ghost predicate Emptied(records: seq<Record>) reads this`arrived, steering`messages {
      records != [] && GoesOn(hooks, records[|records| - 1].turn) ==>
        steering.messages == [] || (arrived != [] && steering.messages == arrived[|arrived| - 1].steering)
    }

    /** A run that is over: its stream is well-formed and ends with the list, which is the prompts and what the turns
        produced; nothing drained is held back; and the ledger has exactly the entries of the turns. */
    ghost predicate Concluded(g: Setting, records: seq<Record>, newMessages: seq<Message>, book: Ledger)
      reads runner`trace, runner`state, runner`origin, runner`executed
      reads this`script, this`steered, this`followed, this`arrived, this`arrivals, this`requests, this`opening, steering, followUp
    {
      && Finished(newMessages) && Balanced([], Prompted)
      && Fits(g) && At(g, records, ContextAfter(g, records), newMessages, book, Here())
      && Over(records) && Emptied(records)
    }

    method RunLoop(initial: Context, prompts: seq<Message>) returns (newMessages: seq<Message>, ghost records: seq<Record>)
      requires Head(true, prompts) && Answers() && Balanced([], Prompted) && skipSteeringPoll == skipFirst
      modifies this`script, this`requests, this`arrivals, this`arrived, this`skipSteeringPoll, this`steered, this`followed, this`left
      modifies runner`trace, runner`state, runner`executed, runner`polls, runner`peak
      modifies steering`messages, steering`accepted, steering`taken, followUp`messages, followUp`accepted, followUp`taken
      modifies this`opening
      ensures Concluded(Setting(old(script), initial, prompts, runner.hooks, hooks, runner.Calm()), records, newMessages, old(Book()))
      ensures opening == old(steering.messages) + SteeringOf(Arriving(old(arrivals)))
    {
      ghost var g, book := Setting(script, initial, prompts, runner.hooks, hooks, runner.Calm()), Book();
      var context, firstTurn, over := initial, true, false;
      newMessages, records := prompts, [];
      opening := steering.messages + SteeringOf(Arriving(arrivals));
      ghost var atFirst := opening;
      var pending := GetSteeringMessages();
      ghost var from := FromSteering;
      AtStart(g, Here());
      while !over
        invariant !over ==> Head(firstTurn, newMessages) && Answers() && Balanced(pending, from)
        invariant !over ==> Fits(g) && At(g, records, context, newMessages, book, Here()) && Due(records, pending, from) && !skipSteeringPoll
        invariant over ==> Concluded(g, records, newMessages, book)
        invariant opening == atFirst
        decreases if over then 0 else |script| + 1
      {
        over, context, newMessages, pending, records := RunRound(firstTurn, context, newMessages, pending, from, g, records, book);
        firstTurn, from := false, FromFollowUp;
      }
    }

    /** The body of the outer loop: turns, and then a look at the follow-up queue. */
    method RunRound(first: bool, context: Context, newMessages: seq<Message>, given: seq<Message>, ghost origin: Origin,
                    ghost g: Setting, ghost records: seq<Record>, ghost book: Ledger)
      returns (over: bool, context': Context, newMessages': seq<Message>, pending: seq<Message>, ghost records': seq<Record>)
      requires Head(first, newMessages) && Answers() && Balanced(given, origin)
      requires Fits(g) && At(g, records, context, newMessages, book, Here()) && Due(records, given, origin) && !skipSteeringPoll
      modifies this`script, this`requests, this`arrivals, this`arrived, this`skipSteeringPoll, this`steered, this`followed, this`left
      modifies runner`trace, runner`state, runner`executed, runner`polls, runner`peak
      modifies steering`messages, steering`accepted, steering`taken, followUp`messages, followUp`accepted, followUp`taken
      ensures over ==> Concluded(g, records', newMessages', book)
      ensures !over ==> Head(false, newMessages') && Answers() && Balanced(pending, FromFollowUp) && |script| < |old(script)|
      ensures !over ==> Fits(g) && At(g, records', context', newMessages', book, Here()) && Due(records', pending, FromFollowUp) && !skipSteeringPoll
    {
      over, context', newMessages', records' := RunTurns(first, context, newMessages, given, origin, g, records, book);
      pending := [];
      if !over { over, pending := LookForFollowUps(newMessages', g, records', book); }
    }

    /** With nothing more asked for, the run goes on only with a follow-up. */
    method LookForFollowUps(newMessages: seq<Message>, ghost g: Setting, ghost records: seq<Record>, ghost book: Ledger)
      returns (over: bool, pending: seq<Message>)
      requires Head(false, newMessages) && Balanced([], FromSteering) && steering.messages == []
      requires records != [] && var last := records[|records| - 1];
                 !last.hasMore && GoesOn(hooks, last.turn) && Fits(g) && At(g, records, Next(hooks, last.turn), newMessages, book, Here())
      modifies this`arrivals, this`arrived, runner`trace, runner`state
      modifies steering`messages, steering`accepted, followUp`messages, followUp`accepted, followUp`taken
      ensures over ==> Concluded(g, records, newMessages, book)
      ensures !over ==> Head(false, newMessages) && Balanced(pending, FromFollowUp) && pending != []
      ensures Here() == old(Here())
    {
      hide At, Next, GoesOn, FollowUpsOf;
      ghost var p := Here();
      pending := GetFollowUpMessages();
      assert Here() == p;
      over := |pending| == 0;
      if over {
        End(newMessages);
        assert Here() == p && ContextAfter(g, records) == Next(hooks, records[|records| - 1].turn);
      }
    }

    /** The inner loop: turns as long as tools ask for more or steering comes in. */
    method RunTurns(first: bool, context: Context, newMessages: seq<Message>, given: seq<Message>, ghost origin: Origin,
                    ghost g: Setting, ghost records: seq<Record>, ghost book: Ledger)
      returns (over: bool, context': Context, newMessages': seq<Message>, ghost records': seq<Record>)
      requires Head(first, newMessages) && Answers() && Balanced(given, origin)
      requires Fits(g) && At(g, records, context, newMessages, book, Here()) && Due(records, given, origin) && !skipSteeringPoll
      modifies this`script, this`requests, this`arrivals, this`arrived, this`skipSteeringPoll, this`steered, this`followed, this`left
      modifies runner`trace, runner`state, runner`executed, runner`polls, runner`peak
      modifies steering`messages, steering`accepted, steering`taken, followUp`messages, followUp`accepted
      ensures records' != [] && var last := records'[|records'| - 1];
                && Fits(g) && At(g, records', Next(hooks, last.turn), newMessages', book, Here())
                && (over <==> !GoesOn(hooks, last.turn)) && (!over ==> !last.hasMore && context' == Next(hooks, last.turn))
      ensures over ==> Concluded(g, records', newMessages', book)
      ensures !over ==> Head(false, newMessages') && Answers() && Balanced([], FromSteering) && |script| < |old(script)|
      ensures !over ==> steering.messages == [] && !skipSteeringPoll
    {
      var firstTurn, hasMore, pending := first, true, given;
      ghost var from := origin;
      context', newMessages', records', over := context, newMessages, records, false;
      while hasMore || |pending| > 0
        invariant Head(firstTurn, newMessages') && Answers() && Balanced(pending, from)
        invariant Fits(g) && At(g, records', context', newMessages', book, Here()) && !skipSteeringPoll
        invariant hasMore || |pending| > 0 ==> Due(records', pending, from)
        invariant !hasMore ==> records' != [] && GoesOn(hooks, records'[|records'| - 1].turn) && !records'[|records'| - 1].hasMore
        invariant !hasMore ==> from == FromSteering && !firstTurn && Took(steering.mode, pending, left) && left == steering.messages
        invariant |script| < |old(script)| || (hasMore && |script| == |old(script)|)
        decreases |script|
      {
        over, hasMore, context', newMessages', pending, records' := Step(firstTurn, context', newMessages', pending, from, g, records', book);
        if over { return; }
        firstTurn, from := false, FromSteering;
      }
    }

    /** The events before the first turn's answer, with the prompts. */
    method Open(prompts: seq<Message>, ghost from: Origin)
      requires runner.trace == [] && runner.Valid() && Balanced(prompts, from)
      modifies this`steered, this`followed, runner`trace, runner`state
      ensures Head(true, prompts) && Balanced([], Prompted) && Book() == EnterPrompts(old(Book()), prompts, from)
    {
      runner.Emit(AgentStart);
      runner.Emit(TurnStart);
      Inject(prompts, from);
    }

    /** A run that begins with new messages, which the context of the first request already contains. */
    method RunAgentLoop(prompts: seq<Message>, context: Context, ghost from: Origin)
      returns (newMessages: seq<Message>, ghost records: seq<Record>)
      requires runner.trace == [] && runner.Valid() && Answers() && Balanced(prompts, from) && skipSteeringPoll == skipFirst
      modifies this`script, this`requests, this`arrivals, this`arrived, this`skipSteeringPoll, this`steered, this`followed, this`left
      modifies runner`trace, runner`state, runner`executed, runner`polls, runner`peak
      modifies steering`messages, steering`accepted, steering`taken, followUp`messages, followUp`accepted, followUp`taken
      ensures Concluded(Setting(old(script), context.(messages := context.messages + prompts), prompts, runner.hooks, hooks, runner.Calm()),
                        records, newMessages, EnterPrompts(old(Book()), prompts, from))
      modifies this`opening
      ensures opening == old(steering.messages) + SteeringOf(Arriving(old(arrivals)))
    {
      Open(prompts, from);
      newMessages, records := RunLoop(context.(messages := context.messages + prompts), prompts);
    }

    /** A run that goes on from the context as it is. */
    method RunAgentLoopContinue(context: Context) returns (newMessages: seq<Message>, ghost records: seq<Record>)
      requires runner.trace == [] && runner.Valid() && Answers() && Balanced([], Prompted) && skipSteeringPoll == skipFirst
      modifies this`script, this`requests, this`arrivals, this`arrived, this`skipSteeringPoll, this`steered, this`followed, this`left
      modifies runner`trace, runner`state, runner`executed, runner`polls, runner`peak
      modifies steering`messages, steering`accepted, steering`taken, followUp`messages, followUp`accepted, followUp`taken
      ensures Concluded(Setting(old(script), context, [], runner.hooks, hooks, runner.Calm()), records, newMessages, old(Book()))
      modifies this`opening
      ensures opening == old(steering.messages) + SteeringOf(Arriving(old(arrivals)))
    {
      Open([], Prompted);
      newMessages, records := RunLoop(context, []);
    }
  }
}
