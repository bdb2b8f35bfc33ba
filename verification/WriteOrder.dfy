/** Writes to one file exclude each other and happen in the order requested, and what that gives the check of
    the expected version. */
module WriteOrder {
  import opened Options
  import opened WriteQueue

  // ----- the order of the writes -----

  lemma EnqueueKeepsOrder(w: World, k: Key, r: Request)
    requires InOrder(w) && Chained(w) && Tailed(w)
    ensures var v := Enqueue(w, k, r); InOrder(v) && Chained(v) && Tailed(v)
  {
    EnqueueChains(w, k, r);
    EnqueueTails(w, k, r);
  }

  lemma EnqueueChains(w: World, k: Key, r: Request)
    requires Chained(w) && Tailed(w)
    ensures Chained(Enqueue(w, k, r))
  {
  }

  lemma EnqueueTails(w: World, k: Key, r: Request)
    requires Tailed(w)
    ensures Tailed(Enqueue(w, k, r))
  {
  }

  lemma EnqueueKeepsBackwards(w: World, k: Key, r: Request)
    requires Tailed(w) && Backwards(w)
    ensures Backwards(Enqueue(w, k, r))
  {
  }

  lemma BeginKeepsInOrder(w: World, j: nat)
    requires InOrder(w) && Chained(w) && Enabled(w, Begin(j))
    ensures InOrder(SetPhase(w, j, Begun))
  {
    assert w.tasks[j].pred.Some? ==> IsDone(w, w.tasks[j].pred.value);
  }

  /** A phase may change if it was not over, and if it was not waiting or everything before it is over. */
  lemma PhaseKeepsOrder(w: World, i: nat, p: Phase)
    requires InOrder(w) && Chained(w) && Tailed(w)
    requires i < |w.tasks| && !w.tasks[i].phase.Done? && !p.Waiting?
    requires InOrder(SetPhase(w, i, p))
    ensures Chained(SetPhase(w, i, p)) && Tailed(SetPhase(w, i, p))
  {
  }

  lemma ActiveKeepsInOrder(w: World, i: nat, p: Phase)
    requires InOrder(w) && i < |w.tasks| && Active(w.tasks[i].phase) && !p.Waiting?
    ensures InOrder(SetPhase(w, i, p))
  {
  }

  lemma RemoveKeepsOrder(w: World, i: nat)
    requires InOrder(w) && Chained(w) && Tailed(w) && IsDone(w, i)
    ensures var v := Remove(w, i); InOrder(v) && Chained(v) && Tailed(v)
  {
  }

  // ----- the texts -----

  lemma {:induction false} TextAtExtends(log: seq<Entry>, more: seq<Entry>, start: map<Key, Text>, k: Key, n: nat)
    requires n <= |log| && log <= more
    ensures TextAt(more, start, k, n) == TextAt(log, start, k, n)
  {
    if n > 0 {
      TextAtExtends(log, more, start, k, n - 1);
    }
  }

  lemma StoreKeepsSound(files: map<Key, Text>, log: seq<Entry>, start: map<Key, Text>, e: Entry)
    requires Sound(files, log, start) && e.before == TextOf(files, e.key)
    ensures Sound(files[e.key := e.after], log + [e], start)
  {
    var more := log + [e];
    forall n | 0 <= n < |more| ensures more[n].before == TextAt(more, start, more[n].key, n) {
      TextAtExtends(log, more, start, more[n].key, n);
    }
    forall k ensures TextOf(files[e.key := e.after], k) == TextAt(more, start, k, |more|) {
      TextAtExtends(log, more, start, k, |log|);
    }
  }

  lemma PhaseKeepsRecorded(w: World, i: nat, p: Phase)
    requires Recorded(w) && i < |w.tasks| && (Stored(w.tasks[i].phase) <==> Stored(p))
    ensures Recorded(SetPhase(w, i, p))
  {
  }

  /** Nothing requested later has been stored when a write is stored, so the log stays in order. */
  lemma StoreKeepsRecorded(w: World, i: nat)
    requires InOrder(w) && Fresh(w) && Recorded(w) && i < |w.tasks| && w.tasks[i].phase.Writing?
    ensures Recorded(Store(w, i))
  {
    var v := Store(w, i);
    forall n | 0 <= n < |w.log| && w.log[n].key == w.tasks[i].key ensures w.log[n].task < i {
      assert Stored(w.tasks[w.log[n].task].phase);
    }
    StoreRecords(w, v, i);
  }

  lemma StoreRecords(w: World, v: World, i: nat)
    requires Recorded(w) && i < |w.tasks| && w.tasks[i].phase.Writing? && v == Store(w, i)
    requires Permits(w.tasks[i].request, TextOf(w.files, w.tasks[i].key), w.tasks[i].phase.next)
    requires forall n :: 0 <= n < |w.log| && w.log[n].key == w.tasks[i].key ==> w.log[n].task < i
    ensures Recorded(v)
  {
    forall j | 0 <= j < |v.tasks| && Stored(v.tasks[j].phase) ensures exists n :: 0 <= n < |v.log| && v.log[n].task == j {
      if j == i {
        assert v.log[|w.log|].task == j;
      } else {
        var n :| 0 <= n < |w.log| && w.log[n].task == j;
        assert v.log[n].task == j;
      }
    }
  }

  lemma StoreKeepsFresh(w: World, i: nat)
    requires InOrder(w) && Fresh(w) && i < |w.tasks| && w.tasks[i].phase.Writing?
    ensures Fresh(Store(w, i))
  {
  }

  lemma EnqueueKeepsRecorded(w: World, k: Key, r: Request)
    requires Recorded(w)
    ensures Recorded(Enqueue(w, k, r))
  {
    var v := Enqueue(w, k, r);
    forall j | 0 <= j < |v.tasks| && Stored(v.tasks[j].phase) ensures exists n :: 0 <= n < |v.log| && v.log[n].task == j {
      assert Stored(w.tasks[j].phase);
    }
  }

  // ----- every step -----

  lemma BatchWriteKeepsInv(w: World, start: map<Key, Text>, k: Key, r: Request)
    requires Inv(w, start)
    ensures Inv(Enqueue(w, k, r), start)
  {
    EnqueueKeepsOrder(w, k, r);
    EnqueueKeepsBackwards(w, k, r);
    EnqueueKeepsRecorded(w, k, r);
  }

  lemma BeginKeepsInv(w: World, start: map<Key, Text>, i: nat)
    requires Inv(w, start) && Enabled(w, Begin(i))
    ensures Inv(SetPhase(w, i, Begun), start)
  {
    BeginKeepsInOrder(w, i);
    PhaseKeepsOrder(w, i, Begun);
    PhaseKeepsRecorded(w, i, Begun);
  }

  lemma ActiveKeepsInv(w: World, start: map<Key, Text>, i: nat, p: Phase)
    requires Inv(w, start) && i < |w.tasks| && Active(w.tasks[i].phase) && !p.Waiting? && (Stored(w.tasks[i].phase) <==> Stored(p))
    requires p.Writing? ==> TextOf(w.files, w.tasks[i].key) == p.read && Permits(w.tasks[i].request, p.read, p.next)
    ensures Inv(SetPhase(w, i, p), start)
  {
    ActiveKeepsInOrder(w, i, p);
    PhaseKeepsOrder(w, i, p);
    PhaseKeepsRecorded(w, i, p);
  }

  lemma StoreKeepsOrder(w: World, i: nat)
    requires InOrder(w) && Chained(w) && Tailed(w) && i < |w.tasks| && w.tasks[i].phase.Writing?
    ensures InOrder(Store(w, i)) && Chained(Store(w, i)) && Tailed(Store(w, i))
  {
    ActiveKeepsInOrder(w, i, Written);
    PhaseKeepsOrder(w, i, Written);
    assert Store(w, i).tasks == SetPhase(w, i, Written).tasks && Store(w, i).tails == w.tails;
  }

  lemma StoreIsSound(w: World, start: map<Key, Text>, i: nat)
    requires Sound(w.files, w.log, start) && i < |w.tasks| && w.tasks[i].phase.Writing?
    ensures Sound(Store(w, i).files, Store(w, i).log, start)
  {
    StoreKeepsSound(w.files, w.log, start, Entry(i, w.tasks[i].key, TextOf(w.files, w.tasks[i].key), w.tasks[i].phase.next));
  }

  lemma StoreKeepsInv(w: World, start: map<Key, Text>, i: nat, v: World)
    requires Inv(w, start) && i < |w.tasks| && w.tasks[i].phase.Writing? && v == Store(w, i)
    ensures Inv(v, start)
  {
    StoreKeepsOrder(w, i);
    StoreKeepsFresh(w, i);
    StoreKeepsRecorded(w, i);
    StoreIsSound(w, start, i);
  }

  lemma RemoveKeepsInv(w: World, start: map<Key, Text>, i: nat)
    requires Inv(w, start) && IsDone(w, i)
    ensures Inv(Remove(w, i), start)
  {
    RemoveKeepsOrder(w, i);
  }

  lemma ReadKeepsInv(w: World, start: map<Key, Text>, i: nat)
    requires Inv(w, start) && Enabled(w, Read(i))
    ensures Inv(Apply(w, Read(i)), start)
  {
    ActiveKeepsInv(w, start, i, Decide(w.tasks[i].request, TextOf(w.files, w.tasks[i].key)));
  }

  lemma SaveKeepsInv(w: World, start: map<Key, Text>, i: nat, ok: bool)
    requires Inv(w, start) && Enabled(w, Save(i, ok))
    ensures Inv(Apply(w, Save(i, ok)), start)
  {
    if ok { StoreKeepsInv(w, start, i, Apply(w, Save(i, ok))); } else { ActiveKeepsInv(w, start, i, Done(WriteFailed)); }
  }

  /** Every step, in every interleaving, keeps the order, the chains and the log. */
  lemma ApplyKeepsInv(w: World, start: map<Key, Text>, e: Event)
    requires Inv(w, start) && Enabled(w, e)
    ensures Inv(Apply(w, e), start)
  {
    match e
    case BatchWrite(k, r) => BatchWriteKeepsInv(w, start, k, r);
    case Begin(i) => BeginKeepsInv(w, start, i);
    case Read(i) => ReadKeepsInv(w, start, i);
    case Save(i, ok) => SaveKeepsInv(w, start, i, ok);
    case Finish(i, ok) => ActiveKeepsInv(w, start, i, Done(if ok then Saved else Unread));
    case CleanUp(i) => RemoveKeepsInv(w, start, i);
  }

  // ----- whole runs -----

  function Initial(files: map<Key, Text>): World { World(files, [], map[], []) }

  /** The state after a sequence of events, of which those that are not possible when they come do nothing. */
  function Run(start: map<Key, Text>, events: seq<Event>): World {
    if events == [] then Initial(start)
    else
      var v, last := Run(start, events[..|events| - 1]), events[|events| - 1];
      if Enabled(v, last) then Apply(v, last) else v
  }

  lemma {:induction false} RunKeepsInv(start: map<Key, Text>, events: seq<Event>)
    ensures Inv(Run(start, events), start)
  {
    if events != [] {
      var v, last := Run(start, events[..|events| - 1]), events[|events| - 1];
      RunKeepsInv(start, events[..|events| - 1]);
      if Enabled(v, last) { ApplyKeepsInv(v, start, last); }
    }
  }

  /** In every reachable state at most one write to a file is under way, everything requested before it is
      over, and nothing requested after it has begun. */
  lemma WritesExcludeEachOther(w: World, start: map<Key, Text>, events: seq<Event>, i: nat, j: nat)
    requires w == Run(start, events) && i < |w.tasks| && j < |w.tasks| && i != j
    requires w.tasks[i].key == w.tasks[j].key && Active(w.tasks[j].phase)
    ensures if i < j then w.tasks[i].phase.Done? else w.tasks[i].phase.Waiting?
  {
    RunKeepsInv(start, events);
  }

  /** No write waits for ever: as long as one is not over, some write can go on. */
  lemma NeverStuck(start: map<Key, Text>, events: seq<Event>, i: nat) returns (e: Event)
    requires i < |Run(start, events).tasks| && !IsDone(Run(start, events), i)
    ensures !e.BatchWrite? && !e.CleanUp? && Enabled(Run(start, events), e)
  {
    RunKeepsInv(start, events);
    e := NextOf(Run(start, events), i);
  }

  lemma NextOf(w: World, i: nat) returns (e: Event)
    requires Backwards(w) && i < |w.tasks| && !IsDone(w, i)
    ensures !e.BatchWrite? && !e.CleanUp? && Enabled(w, e)
  {
    match w.tasks[i].phase {
      case Waiting =>
        if w.tasks[i].pred.Some? && !IsDone(w, w.tasks[i].pred.value) {
          e := NextOf(w, w.tasks[i].pred.value);
        } else {
          e := Begin(i);
        }
      case Begun => e := Read(i);
      case Writing(_, _) => e := Save(i, true);
      case Written => e := Finish(i, true);
      case Done(_) =>
    }
  }

  // ----- compare and swap -----

  /** Between two moments at which a file has the text `v`, if it had another text after the first, some write
      in between restored `v`. */
  lemma {:induction false} SomethingRestored(log: seq<Entry>, start: map<Key, Text>, k: Key, v: Text, n: nat, m: nat) returns (l: nat)
    requires n < m <= |log| && log[n].key == k && log[n].after != v && TextAt(log, start, k, m) == v
    ensures n < l < m && log[l].key == k && log[l].after == v
  {
    if log[m - 1].key == k && log[m - 1].after == v {
      l := m - 1;
    } else {
      l := SomethingRestored(log, start, k, v, n, m - 1);
    }
  }

  /** Two writers presented the same version of a file, both took effect, and the first changed it: then a write
      between them restored that very text. */
  lemma AtMostOneUnlessRestored(w: World, start: map<Key, Text>, events: seq<Event>, i: nat, j: nat, v: Text)
    returns (n: nat, l: nat, m: nat)
    requires w == Run(start, events) && i < j < |w.tasks| && w.tasks[i].key == w.tasks[j].key
    requires Stored(w.tasks[i].phase) && Stored(w.tasks[j].phase)
    requires w.tasks[i].request.expected == Some(v) && w.tasks[j].request.expected == Some(v)
    requires w.tasks[i].request.edit(v) != Some(v)
    ensures n < l < m < |w.log| && w.log[n].task == i && w.log[m].task == j
    ensures w.log[l].key == w.tasks[i].key && i < w.log[l].task < j && w.log[l].after == v
  {
    RunKeepsInv(start, events);
    n := EntryOf(w, i);
    m := EntryOf(w, j);
    EntriesInOrder(w, n, m);
    EntrySound(w, start, n);
    EntrySound(w, start, m);
    l := SomethingRestored(w.log, start, w.tasks[i].key, v, n, m);
    EntriesInOrder(w, n, l);
    EntriesInOrder(w, l, m);
  }

  lemma EntryOf(w: World, i: nat) returns (n: nat)
    requires Recorded(w) && i < |w.tasks| && Stored(w.tasks[i].phase)
    ensures n < |w.log| && w.log[n].task == i
  {
    n :| n < |w.log| && w.log[n].task == i;
  }

  lemma EntriesInOrder(w: World, n: nat, m: nat)
    requires Recorded(w) && n < |w.log| && m < |w.log| && w.log[n].key == w.log[m].key
    ensures n < m <==> w.log[n].task < w.log[m].task
  {
    assert m < n ==> w.log[m].task < w.log[n].task;
  }

  lemma EntrySound(w: World, start: map<Key, Text>, n: nat)
    requires Recorded(w) && Sound(w.files, w.log, start) && n < |w.log|
    ensures var e := w.log[n];
            e.before == TextAt(w.log, start, e.key, n) && e.task < |w.tasks| && w.tasks[e.task].key == e.key && Permits(w.tasks[e.task].request, e.before, e.after)
  {
  }

  // ----- a restored text does let two writers through -----

  lemma RunSnoc(start: map<Key, Text>, events: seq<Event>, e: Event)
    requires Enabled(Run(start, events), e)
    ensures Run(start, events + [e]) == Apply(Run(start, events), e)
  {
    assert (events + [e])[..|events|] == events;
  }

  /** The events of one write made while nothing else is going on. */
  function Alone(k: Key, r: Request, i: nat): seq<Event> { [BatchWrite(k, r), Begin(i), Read(i), Save(i, true), Finish(i, true), CleanUp(i)] }

  /** A quiet `w` with one more write, in the given phase. */
  function With(w: World, k: Key, r: Request, p: Phase): World {
    w.(tasks := w.tasks + [Task(k, r, None, p)], tails := map[k := |w.tasks|])
  }

  lemma AloneReads(start: map<Key, Text>, events: seq<Event>, w: World, k: Key, r: Request, after: Text)
    requires w == Run(start, events) && w.tails == map[] && Permits(r, TextOf(w.files, k), after)
    ensures Run(start, events + [BatchWrite(k, r)] + [Begin(|w.tasks|)] + [Read(|w.tasks|)]) == With(w, k, r, Writing(TextOf(w.files, k), after))
  {
    var i := |w.tasks|;
    RunSnoc(start, events, BatchWrite(k, r));
    assert Apply(w, BatchWrite(k, r)) == With(w, k, r, Waiting);
    RunSnoc(start, events + [BatchWrite(k, r)], Begin(i));
    assert Apply(With(w, k, r, Waiting), Begin(i)) == With(w, k, r, Begun);
    RunSnoc(start, events + [BatchWrite(k, r)] + [Begin(i)], Read(i));
  }

  lemma AloneStores(start: map<Key, Text>, events: seq<Event>, w: World, k: Key, r: Request, before: Text, after: Text)
    requires Run(start, events) == With(w, k, r, Writing(before, after)) && w.tails == map[] && before == TextOf(w.files, k)
    ensures Run(start, events + [Save(|w.tasks|, true)] + [Finish(|w.tasks|, true)] + [CleanUp(|w.tasks|)]) ==
            World(w.files[k := after], w.tasks + [Task(k, r, None, Done(Saved))], map[], w.log + [Entry(|w.tasks|, k, before, after)])
  {
    var i := |w.tasks|;
    var stored := w.(files := w.files[k := after], log := w.log + [Entry(i, k, before, after)]);
    RunSnoc(start, events, Save(i, true));
    assert Apply(With(w, k, r, Writing(before, after)), Save(i, true)) == With(stored, k, r, Written);
    RunSnoc(start, events + [Save(i, true)], Finish(i, true));
    assert Apply(With(stored, k, r, Written), Finish(i, true)) == With(stored, k, r, Done(Saved));
    RunSnoc(start, events + [Save(i, true)] + [Finish(i, true)], CleanUp(i));
  }

  lemma AloneSaves(start: map<Key, Text>, events: seq<Event>, k: Key, r: Request, after: Text)
    requires var w := Run(start, events); w.tails == map[] && Permits(r, TextOf(w.files, k), after)
    ensures var w := Run(start, events);
            Run(start, events + Alone(k, r, |w.tasks|)) ==
            World(w.files[k := after], w.tasks + [Task(k, r, None, Done(Saved))], map[],
                  w.log + [Entry(|w.tasks|, k, TextOf(w.files, k), after)])
  {
    var w := Run(start, events);
    var i := |w.tasks|;
    AloneReads(start, events, w, k, r, after);
    var half := events + [BatchWrite(k, r)] + [Begin(i)] + [Read(i)];
    AloneStores(start, half, w, k, r, TextOf(w.files, k), after);
    assert half + [Save(i, true)] + [Finish(i, true)] + [CleanUp(i)] == events + Alone(k, r, i);
  }

  /** Two writers of the same expected version can both succeed, when a third puts the text back in between. */
  lemma RestoringLetsTwoThrough() returns (events: seq<Event>)
    ensures var w := Run(map["config" := "a"], events);
            && |w.tasks| == 3
            && w.tasks[0].phase == Done(Saved) && w.tasks[0].request.expected == Some("a") && w.tasks[0].request.edit("a") == Some("b")
            && w.tasks[2].phase == Done(Saved) && w.tasks[2].request.expected == Some("a") && w.tasks[2].request.edit("a") == Some("c")
  {
    var start: map<Key, Text> := map["config" := "a"];
    var first, restore, second := Request(Some("a"), t => Some("b")), Request(None, t => Some("a")), Request(Some("a"), t => Some("c"));
    AloneSaves(start, [], "config", first, "b");
    var one := [] + Alone("config", first, 0);
    AloneSaves(start, one, "config", restore, "a");
    var two := one + Alone("config", restore, 1);
    AloneSaves(start, two, "config", second, "c");
    events := two + Alone("config", second, 2);
  }
}
