/** What each write finds when its turn comes, and so exactly which writes are refused. */
module WriteTurns {
  import opened Options
  import opened WriteQueue
  import opened WriteOrder

  /** The text of a file as the first `n` requests leave it, of which those stored count in the order requested. */
  function TextAfter(start: map<Key, Text>, tasks: seq<Task>, k: Key, n: nat): Text
    requires n <= |tasks|
  {
    if n == 0 then TextOf(start, k)
    else
      var before := TextAfter(start, tasks, k, n - 1);
      var t := tasks[n - 1];
      if t.key == k && Stored(t.phase) && t.request.edit(before).Some? then t.request.edit(before).value else before
  }

  /** The text that request `j` finds when its turn comes. */
  function TurnText(start: map<Key, Text>, tasks: seq<Task>, j: nat): Text
    requires j < |tasks|
  {
    TextAfter(start, tasks, tasks[j].key, j)
  }

  predicate Expects(r: Request, text: Text) { r.expected.Some? ==> r.expected.value == text }

  /** How far a write can have got, given the text it found. */
  ghost predicate Consistent(t: Task, text: Text) {
    match t.phase
    case Waiting => true
    case Begun => true
    case Writing(read, next) => read == text && Permits(t.request, text, next)
    case Written => Expects(t.request, text) && t.request.edit(text).Some?
    case Done(result) =>
      match result
      case Conflict => !Expects(t.request, text)
      case Invalid => Expects(t.request, text) && t.request.edit(text).None?
      case _ => Expects(t.request, text) && t.request.edit(text).Some?
  }

  ghost predicate Kept(start: map<Key, Text>, tasks: seq<Task>) {
    forall j :: 0 <= j < |tasks| ==> Consistent(tasks[j], TurnText(start, tasks, j))
  }

  ghost predicate Current(start: map<Key, Text>, tasks: seq<Task>, files: map<Key, Text>) {
    forall k :: TextOf(files, k) == TextAfter(start, tasks, k, |tasks|)
  }

  ghost predicate Turns(w: World, start: map<Key, Text>) { Kept(start, w.tasks) && Current(start, w.tasks, w.files) }

  lemma KeptAt(start: map<Key, Text>, tasks: seq<Task>, j: nat)
    requires Kept(start, tasks) && j < |tasks|
    ensures Consistent(tasks[j], TurnText(start, tasks, j))
  {
  }

  // ----- one more request, one phase later -----

  lemma {:induction false} TextAfterPrefix(start: map<Key, Text>, tasks: seq<Task>, more: seq<Task>, k: Key, n: nat)
    requires n <= |tasks| <= |more|
    requires forall i :: 0 <= i < n && tasks[i].key == k ==> more[i].key == k && more[i].request == tasks[i].request && (Stored(more[i].phase) <==> Stored(tasks[i].phase))
    requires forall i :: 0 <= i < n ==> more[i].key == tasks[i].key
    ensures TextAfter(start, more, k, n) == TextAfter(start, tasks, k, n)
  {
    if n > 0 {
      TextAfterPrefix(start, tasks, more, k, n - 1);
    }
  }

  /** Requests that are not stored leave the text alone. */
  lemma {:induction false} NothingStored(start: map<Key, Text>, tasks: seq<Task>, k: Key, m: nat, n: nat)
    requires m <= n <= |tasks|
    requires forall i :: m <= i < n && tasks[i].key == k ==> !Stored(tasks[i].phase)
    ensures TextAfter(start, tasks, k, n) == TextAfter(start, tasks, k, m)
  {
    if m < n {
      NothingStored(start, tasks, k, m, n - 1);
    }
  }

  lemma EnqueueKeepsTurns(w: World, start: map<Key, Text>, k: Key, r: Request)
    requires Turns(w, start)
    ensures Turns(Enqueue(w, k, r), start)
  {
    var v := Enqueue(w, k, r);
    forall j | 0 <= j < |v.tasks| ensures Consistent(v.tasks[j], TurnText(start, v.tasks, j)) {
      if j < |w.tasks| { TextAfterPrefix(start, w.tasks, v.tasks, w.tasks[j].key, j); }
    }
    forall x ensures TextOf(v.files, x) == TextAfter(start, v.tasks, x, |v.tasks|) {
      TextAfterPrefix(start, w.tasks, v.tasks, x, |w.tasks|);
    }
  }

  /** What changes phase without being stored changes no text. */
  lemma PhaseKeepsTurns(w: World, start: map<Key, Text>, i: nat, p: Phase)
    requires Turns(w, start) && i < |w.tasks| && (Stored(w.tasks[i].phase) <==> Stored(p))
    requires Consistent(w.tasks[i].(phase := p), TurnText(start, w.tasks, i))
    ensures Turns(SetPhase(w, i, p), start)
  {
    var v := SetPhase(w, i, p);
    forall j | 0 <= j < |v.tasks| ensures Consistent(v.tasks[j], TurnText(start, v.tasks, j)) {
      TextAfterPrefix(start, w.tasks, v.tasks, w.tasks[j].key, j);
    }
    forall x ensures TextOf(v.files, x) == TextAfter(start, v.tasks, x, |v.tasks|) {
      TextAfterPrefix(start, w.tasks, v.tasks, x, |w.tasks|);
    }
  }

  lemma LaterWait(w: World, i: nat)
    requires InOrder(w) && i < |w.tasks| && Active(w.tasks[i].phase)
    ensures forall x :: i < x < |w.tasks| && w.tasks[x].key == w.tasks[i].key ==> w.tasks[x].phase.Waiting?
  {
  }

  /** When a write reads its file it finds the text of its turn: what came before is over, what comes after waits. */
  lemma FindsTurnText(w: World, start: map<Key, Text>, i: nat)
    requires InOrder(w) && Current(start, w.tasks, w.files) && i < |w.tasks| && Active(w.tasks[i].phase) && !w.tasks[i].phase.Written?
    ensures TextOf(w.files, w.tasks[i].key) == TurnText(start, w.tasks, i)
  {
    LaterWait(w, i);
    TurnIsLast(start, w.tasks, i);
  }

  lemma TurnIsLast(start: map<Key, Text>, tasks: seq<Task>, i: nat)
    requires i < |tasks| && !Stored(tasks[i].phase)
    requires forall x :: i < x < |tasks| && tasks[x].key == tasks[i].key ==> tasks[x].phase.Waiting?
    ensures TextAfter(start, tasks, tasks[i].key, |tasks|) == TurnText(start, tasks, i)
  {
    NothingStored(start, tasks, tasks[i].key, i, |tasks|);
  }

  lemma StoreKeepsKept(start: map<Key, Text>, tasks: seq<Task>, i: nat)
    requires Kept(start, tasks) && i < |tasks| && tasks[i].phase.Writing?
    requires forall x :: i < x < |tasks| && tasks[x].key == tasks[i].key ==> tasks[x].phase.Waiting?
    ensures Kept(start, tasks[i := tasks[i].(phase := Written)])
  {
    var more := tasks[i := tasks[i].(phase := Written)];
    KeptAt(start, tasks, i);
    forall j | 0 <= j < |more| ensures Consistent(more[j], TurnText(start, more, j)) {
      KeptAt(start, tasks, j);
      if j <= i || tasks[j].key != tasks[i].key {
        TextAfterPrefix(start, tasks, more, tasks[j].key, j);
      }
    }
  }

  lemma StoredText(start: map<Key, Text>, tasks: seq<Task>, i: nat)
    requires i < |tasks| && tasks[i].phase.Writing?
    requires tasks[i].request.edit(TurnText(start, tasks, i)) == Some(tasks[i].phase.next)
    requires forall x :: i < x < |tasks| && tasks[x].key == tasks[i].key ==> tasks[x].phase.Waiting?
    ensures TextAfter(start, tasks[i := tasks[i].(phase := Written)], tasks[i].key, |tasks|) == tasks[i].phase.next
  {
    var more := tasks[i := tasks[i].(phase := Written)];
    TextAfterPrefix(start, tasks, more, tasks[i].key, i);
    NothingStored(start, more, tasks[i].key, i + 1, |more|);
  }

  lemma StoreKeepsTurns(w: World, start: map<Key, Text>, i: nat)
    requires InOrder(w) && Turns(w, start) && i < |w.tasks| && w.tasks[i].phase.Writing?
    ensures Turns(Store(w, i), start)
  {
    LaterWait(w, i);
    KeptAt(start, w.tasks, i);
    StoreKeepsKept(start, w.tasks, i);
    StoredText(start, w.tasks, i);
    var v := Store(w, i);
    forall x ensures TextOf(v.files, x) == TextAfter(start, v.tasks, x, |v.tasks|) {
      if x != w.tasks[i].key { TextAfterPrefix(start, w.tasks, v.tasks, x, |w.tasks|); }
    }
  }

  lemma ReadKeepsTurns(w: World, start: map<Key, Text>, i: nat)
    requires Inv(w, start) && Turns(w, start) && Enabled(w, Read(i))
    ensures Turns(Apply(w, Read(i)), start)
  {
    FindsTurnText(w, start, i);
    PhaseKeepsTurns(w, start, i, Decide(w.tasks[i].request, TextOf(w.files, w.tasks[i].key)));
  }

  lemma EndKeepsTurns(w: World, start: map<Key, Text>, i: nat, result: WriteQueue.Result)
    requires Turns(w, start) && i < |w.tasks|
    requires if w.tasks[i].phase.Written? then result.Saved? || result.Unread? else w.tasks[i].phase.Writing? && result.WriteFailed?
    ensures Turns(SetPhase(w, i, Done(result)), start)
  {
    KeptAt(start, w.tasks, i);
    PhaseKeepsTurns(w, start, i, Done(result));
  }

  lemma ApplyKeepsTurns(w: World, start: map<Key, Text>, e: Event)
    requires Inv(w, start) && Turns(w, start) && Enabled(w, e)
    ensures Turns(Apply(w, e), start)
  {
    match e
    case BatchWrite(k, r) => EnqueueKeepsTurns(w, start, k, r);
    case Begin(i) => PhaseKeepsTurns(w, start, i, Begun);
    case Read(i) => ReadKeepsTurns(w, start, i);
    case Save(i, ok) => if ok { StoreKeepsTurns(w, start, i); } else { EndKeepsTurns(w, start, i, WriteFailed); }
    case Finish(i, ok) => EndKeepsTurns(w, start, i, if ok then Saved else Unread);
    case CleanUp(_) =>
  }

  lemma {:induction false} RunKeepsTurns(start: map<Key, Text>, events: seq<Event>)
    ensures Turns(Run(start, events), start)
  {
    if events != [] {
      var front, last := events[..|events| - 1], events[|events| - 1];
      RunKeepsTurns(start, front);
      RunKeepsInv(start, front);
      if Enabled(Run(start, front), last) { ApplyKeepsTurns(Run(start, front), start, last); }
    }
  }

  // ----- which writes are refused -----

  /** In every run a write that is over was refused for its version exactly when the text of its turn was not the
      one it expected, and for its edit exactly when that text could not be edited so. */
  lemma RefusedExactlyWhen(start: map<Key, Text>, events: seq<Event>, j: nat)
    requires var w := Run(start, events); j < |w.tasks| && w.tasks[j].phase.Done?
    ensures var w := Run(start, events);
            var text := TurnText(start, w.tasks, j);
            && (w.tasks[j].phase.result.Conflict? <==> w.tasks[j].request.expected.Some? && w.tasks[j].request.expected.value != text)
            && (w.tasks[j].phase.result.Invalid? <==> Expects(w.tasks[j].request, text) && w.tasks[j].request.edit(text).None?)
  {
    RunKeepsTurns(start, events);
  }

  /** Request `l` was stored, leaves the text `v` in its file, and is the last one stored there before `j`. */
  ghost predicate LastBefore(start: map<Key, Text>, tasks: seq<Task>, l: nat, j: nat, v: Text) {
    && l < j < |tasks| && tasks[l].key == tasks[j].key && Stored(tasks[l].phase)
    && tasks[l].request.edit(TurnText(start, tasks, l)) == Some(v)
    && forall i :: l < i < j && tasks[i].key == tasks[j].key ==> !Stored(tasks[i].phase)
  }

  predicate StoredFor(tasks: seq<Task>, l: nat, k: Key) { l < |tasks| && tasks[l].key == k && Stored(tasks[l].phase) }

  lemma {:induction false} LastStored(tasks: seq<Task>, i: nat, j: nat, k: Key) returns (l: nat)
    requires i < j <= |tasks| && StoredFor(tasks, i, k)
    ensures i <= l < j && StoredFor(tasks, l, k) && forall x :: l < x < j ==> !StoredFor(tasks, x, k)
    decreases j
  {
    if StoredFor(tasks, j - 1, k) { l := j - 1; } else { l := LastStored(tasks, i, j - 1, k); }
  }

  /** After a stored write the text of a later turn is what the last stored write before that turn left. */
  lemma LastStoredDecides(start: map<Key, Text>, tasks: seq<Task>, i: nat, j: nat) returns (l: nat)
    requires Kept(start, tasks) && i < j < |tasks| && StoredFor(tasks, i, tasks[j].key)
    ensures i <= l && LastBefore(start, tasks, l, j, TurnText(start, tasks, j))
  {
    l := LastStored(tasks, i, j, tasks[j].key);
    KeptAt(start, tasks, l);
    forall x | l < x < j && tasks[x].key == tasks[j].key ensures !Stored(tasks[x].phase) {
      assert !StoredFor(tasks, x, tasks[j].key);
    }
    LastLeaves(start, tasks, l, j);
  }

  lemma LastLeaves(start: map<Key, Text>, tasks: seq<Task>, l: nat, j: nat)
    requires l < j < |tasks| && tasks[l].key == tasks[j].key && Stored(tasks[l].phase) && Consistent(tasks[l], TurnText(start, tasks, l))
    requires forall x :: l < x < j && tasks[x].key == tasks[j].key ==> !Stored(tasks[x].phase)
    ensures tasks[l].request.edit(TurnText(start, tasks, l)) == Some(TurnText(start, tasks, j))
  {
    NothingStored(start, tasks, tasks[j].key, l + 1, j);
  }

  /** Two writers present the same version, the first is stored and changes the text: the second is not refused for
      its version exactly when the last write stored in between put that very text back. */
  lemma SecondPassesExactlyWhen(start: map<Key, Text>, events: seq<Event>, i: nat, j: nat, v: Text)
    requires var w := Run(start, events);
             && i < j < |w.tasks| && w.tasks[i].key == w.tasks[j].key
             && w.tasks[i].request.expected == Some(v) && w.tasks[j].request.expected == Some(v)
             && Stored(w.tasks[i].phase) && w.tasks[i].request.edit(v) != Some(v) && w.tasks[j].phase.Done?
    ensures var w := Run(start, events);
            !w.tasks[j].phase.result.Conflict? <==> exists l :: i < l && LastBefore(start, w.tasks, l, j, v)
  {
    var w := Run(start, events);
    RunKeepsTurns(start, events);
    RefusedExactlyWhen(start, events, j);
    PassesAfterLast(start, w.tasks, i, j, v);
  }

  lemma PassesAfterLast(start: map<Key, Text>, tasks: seq<Task>, i: nat, j: nat, v: Text)
    requires Kept(start, tasks) && i < j < |tasks| && tasks[i].key == tasks[j].key
    requires tasks[i].request.expected == Some(v) && Stored(tasks[i].phase) && tasks[i].request.edit(v) != Some(v)
    ensures TurnText(start, tasks, j) == v <==> exists l :: i < l && LastBefore(start, tasks, l, j, v)
  {
    KeptAt(start, tasks, i);
    var l := LastStoredDecides(start, tasks, i, j);
    forall x | LastBefore(start, tasks, x, j, v) ensures x == l {
      OnlyOneIsLast(start, tasks, x, l, j, v, TurnText(start, tasks, j));
    }
  }

  lemma OnlyOneIsLast(start: map<Key, Text>, tasks: seq<Task>, a: nat, b: nat, j: nat, v: Text, u: Text)
    requires LastBefore(start, tasks, a, j, v) && LastBefore(start, tasks, b, j, u)
    ensures a == b
  {
  }

  /** So, when its edit is valid and its own write does not fail, both take effect exactly then. */
  lemma BothStoredExactlyWhen(start: map<Key, Text>, events: seq<Event>, i: nat, j: nat, v: Text)
    requires var w := Run(start, events);
             && i < j < |w.tasks| && w.tasks[i].key == w.tasks[j].key
             && w.tasks[i].request.expected == Some(v) && w.tasks[j].request.expected == Some(v)
             && Stored(w.tasks[i].phase) && w.tasks[i].request.edit(v) != Some(v)
             && w.tasks[j].phase.Done? && !w.tasks[j].phase.result.WriteFailed? && w.tasks[j].request.edit(v).Some?
    ensures var w := Run(start, events);
            Stored(w.tasks[j].phase) <==> exists l :: i < l && LastBefore(start, w.tasks, l, j, v)
  {
    SecondPassesExactlyWhen(start, events, i, j, v);
    RefusedExactlyWhen(start, events, j);
  }
}
