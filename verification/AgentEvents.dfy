/** Messages, the event stream of a run, the reducer that turns events into agent state, and the grammar
    a well-formed stream obeys. */
module AgentEvents {
  import opened Options

  datatype ToolCall = ToolCall(id: string, name: string, arguments: string)

  datatype StopReason = Stopped | ToolUse | Length | Errored | Aborted

  datatype Message =
    | User(text: string)
    | Assistant(text: string, calls: seq<ToolCall>, stop: StopReason, error: Option<string>)
    | ToolResult(callId: string, toolName: string, content: string, isError: bool)

  datatype Event =
    | AgentStart
    | TurnStart
    | MessageStart(message: Message)
    | MessageUpdate(message: Message)
    | MessageEnd(message: Message)
    | ToolStart(id: string)
    | ToolEnd(id: string)
    | TurnEnd(message: Message, results: seq<Message>)
    | AgentEnd(messages: seq<Message>)

  // ----- the reducer -----

  datatype AgentState = AgentState(messages: seq<Message>, streaming: Option<Message>, pending: set<string>, error: Option<string>)

  function Reduce(s: AgentState, e: Event): AgentState {
    match e
    case MessageStart(m) => s.(streaming := Some(m))
    case MessageUpdate(m) => s.(streaming := Some(m))
    case MessageEnd(m) => s.(streaming := None, messages := s.messages + [m])
    case ToolStart(id) => s.(pending := s.pending + {id})
    case ToolEnd(id) => s.(pending := s.pending - {id})
    case TurnEnd(m, _) => if m.Assistant? && m.error.Some? then s.(error := m.error) else s
    case AgentEnd(_) => s.(streaming := None)
    case _ => s
  }

  function ReduceAll(s: AgentState, events: seq<Event>): AgentState {
    if events == [] then s else Reduce(ReduceAll(s, events[..|events| - 1]), events[|events| - 1])
  }

  /** The messages a stream completes. */
  function MessagesOf(events: seq<Event>): seq<Message> {
    if events == [] then []
    else MessagesOf(events[..|events| - 1]) +
         (if events[|events| - 1].MessageEnd? then [events[|events| - 1].message] else [])
  }

  // ----- the grammar -----

  datatype Stage = Before | Between | InTurn | After | Broken

  /** `running` holds the tool calls started in this turn and not ended; `leaked` records that a turn ended
      while some were still running. */
  datatype Phase = Phase(stage: Stage, open: bool, running: multiset<string>, turns: nat, leaked: bool)

  const START := Phase(Before, false, multiset{}, 0, false)

  function Advance(p: Phase, e: Event): Phase {
    match e
    case AgentStart => if p.stage.Before? then p.(stage := Between) else p.(stage := Broken)
    case TurnStart => if p.stage.Between? then p.(stage := InTurn) else p.(stage := Broken)
    case MessageStart(_) => if p.stage.InTurn? && !p.open then p.(open := true) else p.(stage := Broken)
    case MessageUpdate(_) => if p.stage.InTurn? && p.open then p else p.(stage := Broken)
    case MessageEnd(_) => if p.stage.InTurn? && p.open then p.(open := false) else p.(stage := Broken)
    case ToolStart(id) => if p.stage.InTurn? && !p.open then p.(running := p.running + multiset{id}) else p.(stage := Broken)
    case ToolEnd(id) => if p.stage.InTurn? && !p.open && id in p.running then p.(running := p.running - multiset{id}) else p.(stage := Broken)
    case TurnEnd(_, _) =>
      if p.stage.InTurn? && !p.open then p.(stage := Between, running := multiset{}, turns := p.turns + 1, leaked := p.leaked || p.running != multiset{})
      else p.(stage := Broken)
    case AgentEnd(_) => if p.stage.Between? && p.turns > 0 then p.(stage := After) else p.(stage := Broken)
  }

  function AdvanceAll(p: Phase, events: seq<Event>): Phase {
    if events == [] then p else Advance(AdvanceAll(p, events[..|events| - 1]), events[|events| - 1])
  }

  /** One `agent_start`, one or more turns, one final `agent_end`; messages never nest. */
  ghost predicate WellFormed(events: seq<Event>) { AdvanceAll(START, events).stage.After? }

  // ----- what holds of every stream -----

  lemma Appended(s: AgentState, p: Phase, events: seq<Event>, e: Event)
    ensures ReduceAll(s, events + [e]) == Reduce(ReduceAll(s, events), e)
    ensures AdvanceAll(p, events + [e]) == Advance(AdvanceAll(p, events), e)
    ensures MessagesOf(events + [e]) == MessagesOf(events) + (if e.MessageEnd? then [e.message] else [])
  {
    assert (events + [e])[..|events|] == events;
  }

  /** The transcript after any stream, well-formed or not, is the one before it followed by exactly the
      messages the stream completed. */
  lemma {:induction false} TranscriptIsConserved(s: AgentState, events: seq<Event>)
    ensures ReduceAll(s, events).messages == s.messages + MessagesOf(events)
  {
    if events != [] {
      TranscriptIsConserved(s, events[..|events| - 1]);
    }
  }

  /** A stage that is broken stays broken, so every prefix of an unbroken stream is unbroken. */
  lemma {:induction false} PrefixUnbroken(events: seq<Event>, k: nat)
    requires k <= |events| && !AdvanceAll(START, events).stage.Broken?
    ensures !AdvanceAll(START, events[..k]).stage.Broken?
    ensures AdvanceAll(START, events[..k]).leaked ==> AdvanceAll(START, events).leaked
  {
    if k == |events| {
      assert events[..k] == events;
    } else {
      var front := events[..|events| - 1];
      PrefixUnbroken(front, k);
      assert front[..k] == events[..k];
    }
  }

  ghost predicate PendingWithin(s: AgentState, p: Phase) { p.leaked || forall id :: id in s.pending ==> id in p.running }

  lemma PendingStep(s: AgentState, p: Phase, e: Event)
    requires PendingWithin(s, p) && !Advance(p, e).stage.Broken?
    ensures PendingWithin(Reduce(s, e), Advance(p, e))
  {
  }

  /** Until something leaks, the pending set names only calls that are still running. */
  lemma {:induction false} PendingIsRunning(s: AgentState, events: seq<Event>)
    requires s.pending == {} && !AdvanceAll(START, events).stage.Broken?
    ensures PendingWithin(ReduceAll(s, events), AdvanceAll(START, events))
  {
    if events != [] {
      var front, last := events[..|events| - 1], events[|events| - 1];
      PrefixUnbroken(events, |events| - 1);
      PendingIsRunning(s, front);
      PendingStep(ReduceAll(s, front), AdvanceAll(START, front), last);
    }
  }

  /** In an unbroken stream that leaks nothing, the pending set is empty at every `turn_end`. */
  lemma PendingEmptyAtTurnEnd(s: AgentState, events: seq<Event>, k: nat)
    requires s.pending == {} && k < |events| && events[k].TurnEnd?
    requires !AdvanceAll(START, events).stage.Broken? && !AdvanceAll(START, events).leaked
    ensures ReduceAll(s, events[..k]).pending == {}
  {
    PrefixUnbroken(events, k);
    PrefixUnbroken(events, k + 1);
    assert events[..k + 1][..k] == events[..k];
    PendingIsRunning(s, events[..k]);
    assert AdvanceAll(START, events[..k]).running == multiset{};
  }

  function Count(events: seq<Event>, kind: Event -> bool): nat {
    if events == [] then 0
    else Count(events[..|events| - 1], kind) + (if kind(events[|events| - 1]) then 1 else 0)
  }

  ghost predicate Shaped(events: seq<Event>, p: Phase) {
    && Count(events, (e: Event) => e.AgentStart?) == (if p.stage.Before? then 0 else 1)
    && Count(events, (e: Event) => e.AgentEnd?) == (if p.stage.After? then 1 else 0)
    && Count(events, (e: Event) => e.TurnEnd?) == p.turns
    && Count(events, (e: Event) => e.TurnStart?) == p.turns + (if p.stage.InTurn? then 1 else 0)
    && (p.stage.Before? <==> events == [])
    && (events != [] ==> events[0].AgentStart?)
    && (p.stage.After? ==> events[|events| - 1].AgentEnd? && p.turns > 0)
  }

  lemma ShapeAdvances(events: seq<Event>, p: Phase)
    requires events != [] && Shaped(events[..|events| - 1], p) && !Advance(p, events[|events| - 1]).stage.Broken?
    ensures Shaped(events, Advance(p, events[|events| - 1]))
  {
  }

  /** A well-formed stream begins with its only `agent_start`, ends with its only `agent_end`, and
      completes as many turns as it starts. */
  lemma {:induction false} WellFormedShape(events: seq<Event>)
    requires !AdvanceAll(START, events).stage.Broken?
    ensures Shaped(events, AdvanceAll(START, events))
  {
    if events != [] {
      PrefixUnbroken(events, |events| - 1);
      WellFormedShape(events[..|events| - 1]);
      ShapeAdvances(events, AdvanceAll(START, events[..|events| - 1]));
    }
  }
}
