/** The story of a run, turn by turn, in plain words: which answer a turn uses, what lets the run go on, and what the
    events tell a listener. */
module AgentStory {
  import opened Options
  import opened AgentEvents
  import opened AgentLoop

  // ----- the turns -----

  lemma {:induction false} EachFollows(g: Setting, records: seq<Record>, k: nat)
    requires Told(g, records) && k < |records|
    ensures Follows(g, records[..k], records[k])
    decreases |records|
  {
    var front := records[..|records| - 1];
    if k < |front| {
      EachFollows(g, front, k);
      assert front[..k] == records[..k];
    }
  }

  /** The context after a turn: the one it left, unless the hook has another. */
  ghost predicate Leaves(hooks: TurnHooks, turn: Turn, context: Context) {
    match hooks.prepareNext
    case None => context == turn.context
    case Some(prepare) => match prepare(turn) { case None => context == turn.context case Some(other) => context == other }
  }

  /** A run goes on after a turn exactly if its answer neither failed nor was aborted and the hook, asked with the context
      of the next turn, does not stop it. */
  lemma GoesOnExactlyWhen(hooks: TurnHooks, turn: Turn, context: Context)
    requires turn.message.Assistant? && Leaves(hooks, turn, context)
    ensures GoesOn(hooks, turn) <==>
              turn.message.stop != Errored && turn.message.stop != Aborted && (hooks.shouldStop.None? || !hooks.shouldStop.value(turn.(context := context)))
  {
  }

  /** Turn by turn: each uses the answer whose turn it is, or the error of a provider that has no more; it begins with the
      context that the one before left; and that one neither failed, nor was aborted, nor was stopped by the hook, and either
      its tools ask for another turn or messages came in. */
  lemma TurnsFollow(g: Setting, records: seq<Record>, k: nat)
    requires Told(g, records) && k < |records|
    ensures var r := records[k];
            && r.turn.message == (if k < |g.script| then g.script[k].final else Assistant("", [], Errored, Some("no answer")))
            && r.turn.context.tools == r.before.tools
            && r.turn.context.messages == r.before.messages + r.pending + [r.turn.message] + r.turn.results
            && (k == 0 ==> r.before == g.initial)
    ensures k > 0 ==>
              var r, last := records[k], records[k - 1];
              && Leaves(g.hooks, last.turn, r.before)
              && last.turn.message.Assistant? && last.turn.message.stop != Errored && last.turn.message.stop != Aborted
              && (g.hooks.shouldStop.None? || !g.hooks.shouldStop.value(last.turn.(context := r.before)))
              && (last.hasMore || r.pending != [])
  {
    EachFollows(g, records, k);
    if k > 0 {
      EachFollows(g, records, k - 1);
      assert records[..k][k - 1] == records[k - 1];
      GoesOnExactlyWhen(g.hooks, records[k - 1].turn, records[k].before);
    }
  }

  // ----- what arrives -----

  lemma {:induction false} SteeringIsKept(a: seq<Arrival>, b: seq<Arrival>)
    ensures SteeringOf(a + b) == SteeringOf(a) + SteeringOf(b)
    decreases |b|
  {
    if b == [] {
      assert a + b == a;
    } else {
      var front, last := b[..|b| - 1], b[|b| - 1];
      SteeringIsKept(a, front);
      ArrivalsGrow(a + front, last);
      ArrivalsGrow(front, last);
      assert a + b == a + front + [last] && b == front + [last];
      hide SteeringOf;
    }
  }

  lemma {:induction false} FollowUpsAreKept(a: seq<Arrival>, b: seq<Arrival>)
    ensures FollowUpsOf(a + b) == FollowUpsOf(a) + FollowUpsOf(b)
    decreases |b|
  {
    if b == [] {
      assert a + b == a;
    } else {
      var front, last := b[..|b| - 1], b[|b| - 1];
      FollowUpsAreKept(a, front);
      ArrivalsGrow(a + front, last);
      ArrivalsGrow(front, last);
      assert a + b == a + front + [last] && b == front + [last];
      hide FollowUpsOf;
    }
  }

  /** Messages that others enqueue during a run are enqueued in the order in which they arrive, and all of them. */
  lemma ArrivalsAreKept(a: seq<Arrival>, x: Arrival, b: seq<Arrival>)
    ensures SteeringOf(a + [x] + b) == SteeringOf(a) + x.steering + SteeringOf(b)
    ensures FollowUpsOf(a + [x] + b) == FollowUpsOf(a) + x.followUp + FollowUpsOf(b)
  {
    SteeringIsKept(a + [x], b);
    FollowUpsAreKept(a + [x], b);
    ArrivalsGrow(a, x);
  }

  // ----- what the events tell -----

  ghost predicate Names(e: Event, id: string) { e == ToolStart(id) || e == ToolEnd(id) }

  ghost predicate Streams(e: Event) { e.MessageStart? || e.MessageUpdate? || e.MessageEnd? || e.AgentEnd? }

  ghost predicate ReportsError(e: Event) { e.TurnEnd? && e.message.Assistant? && e.message.error.Some? }

  lemma {:induction false} PendingStays(s: AgentState, events: seq<Event>, id: string)
    requires forall i :: 0 <= i < |events| ==> !Names(events[i], id)
    ensures id in ReduceAll(s, events).pending <==> id in s.pending
  {
    if events != [] { PendingStays(s, events[..|events| - 1], id); }
  }

  /** A call is pending exactly if the last event that names it is its start. */
  lemma {:induction false} PendingIsTheLast(s: AgentState, events: seq<Event>, id: string, i: nat)
    requires i < |events| && Names(events[i], id)
    requires forall j :: i < j < |events| ==> !Names(events[j], id)
    ensures id in ReduceAll(s, events).pending <==> events[i] == ToolStart(id)
    decreases |events|
  {
    if i < |events| - 1 { PendingIsTheLast(s, events[..|events| - 1], id, i); }
  }

  lemma {:induction false} StreamingStays(s: AgentState, events: seq<Event>)
    requires forall i :: 0 <= i < |events| ==> !Streams(events[i])
    ensures ReduceAll(s, events).streaming == s.streaming
  {
    if events != [] { StreamingStays(s, events[..|events| - 1]); }
  }

  /** The message being streamed is the one last started or updated, and none once a message or the run has ended. */
  lemma {:induction false} StreamingIsTheLast(s: AgentState, events: seq<Event>, i: nat)
    requires i < |events| && Streams(events[i])
    requires forall j :: i < j < |events| ==> !Streams(events[j])
    ensures ReduceAll(s, events).streaming == if events[i].MessageStart? || events[i].MessageUpdate? then Some(events[i].message) else None
    decreases |events|
  {
    if i < |events| - 1 { StreamingIsTheLast(s, events[..|events| - 1], i); }
  }

  lemma {:induction false} ErrorStays(s: AgentState, events: seq<Event>)
    requires forall i :: 0 <= i < |events| ==> !ReportsError(events[i])
    ensures ReduceAll(s, events).error == s.error
  {
    if events != [] { ErrorStays(s, events[..|events| - 1]); }
  }

  /** The error shown is that of the last turn whose answer had one. */
  lemma {:induction false} ErrorIsTheLast(s: AgentState, events: seq<Event>, i: nat)
    requires i < |events| && ReportsError(events[i])
    requires forall j :: i < j < |events| ==> !ReportsError(events[j])
    ensures ReduceAll(s, events).error == events[i].message.error
    decreases |events|
  {
    if i < |events| - 1 { ErrorIsTheLast(s, events[..|events| - 1], i); }
  }
}
