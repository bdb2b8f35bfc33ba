/** Writes to configuration files: one promise chain per file, whose entry is removed once its last write is
    over, and a check of the expected version inside each write. */
module WriteQueue {
  import opened Options

  type Key = string

  /** A version is the hash of a text; equal versions mean equal texts, so the text stands for both. */
  type Text = string

  /** `edit` patches a text; it has no result when the patched text does not validate. */
  datatype Request = Request(expected: Option<Text>, edit: Text -> Option<Text>)

  /** `Unread`: the text was stored, but the file could not be read back, and the write is reported as failed. */
  datatype Result = Saved | Conflict | Invalid | WriteFailed | Unread

  datatype Phase = Waiting | Begun | Writing(read: Text, next: Text) | Written | Done(result: Result)

  /** `pred` is the chain entry found when the write was requested. */
  datatype Task = Task(key: Key, request: Request, pred: Option<nat>, phase: Phase)

  datatype Entry = Entry(task: nat, key: Key, before: Text, after: Text)

  /** `tails` is the map of chain entries; `log` records the writes made to files. */
  datatype World = World(files: map<Key, Text>, tasks: seq<Task>, tails: map<Key, nat>, log: seq<Entry>)

  datatype Event =
    | BatchWrite(key: Key, request: Request)
    | Begin(i: nat)
    | Read(i: nat)
    | Save(i: nat, ok: bool)
    | Finish(i: nat, ok: bool)
    | CleanUp(i: nat)

  /** A missing file reads as an empty one. */
  function TextOf(files: map<Key, Text>, k: Key): Text { if k in files then files[k] else "" }

  function SetPhase(w: World, i: nat, p: Phase): World
    requires i < |w.tasks|
  {
    w.(tasks := w.tasks[i := w.tasks[i].(phase := p)])
  }

  predicate IsDone(w: World, i: nat) { i < |w.tasks| && w.tasks[i].phase.Done? }

  /** A write begins when the write it was chained to is over, however that ended. */
  predicate Enabled(w: World, e: Event) {
    match e
    case BatchWrite(_, _) => true
    case Begin(i) => i < |w.tasks| && w.tasks[i].phase.Waiting? && (w.tasks[i].pred.None? || IsDone(w, w.tasks[i].pred.value))
    case Read(i) => i < |w.tasks| && w.tasks[i].phase.Begun?
    case Save(i, _) => i < |w.tasks| && w.tasks[i].phase.Writing?
    case Finish(i, _) => i < |w.tasks| && w.tasks[i].phase.Written?
    case CleanUp(i) => IsDone(w, i)
  }

  function Enqueue(w: World, k: Key, r: Request): World {
    var pred := if k in w.tails then Some(w.tails[k]) else None;
    w.(tasks := w.tasks + [Task(k, r, pred, Waiting)], tails := w.tails[k := |w.tasks|])
  }

  /** What a write does with the text it reads. */
  function Decide(r: Request, text: Text): Phase {
    if r.expected.Some? && r.expected.value != text then Done(Conflict)
    else
      var next := r.edit(text);
      if next.None? then Done(Invalid) else Writing(text, next.value)
  }

  function Store(w: World, i: nat): World
    requires i < |w.tasks| && w.tasks[i].phase.Writing?
  {
    var t := w.tasks[i];
    SetPhase(w, i, Written).(files := w.files[t.key := t.phase.next],
                             log := w.log + [Entry(i, t.key, TextOf(w.files, t.key), t.phase.next)])
  }

  function Remove(w: World, i: nat): World
    requires i < |w.tasks|
  {
    var k := w.tasks[i].key;
    if k in w.tails && w.tails[k] == i then w.(tails := map x | x in w.tails && x != k :: w.tails[x]) else w
  }

  function Apply(w: World, e: Event): World
    requires Enabled(w, e)
  {
    match e
    case BatchWrite(k, r) => Enqueue(w, k, r)
    case Begin(i) => SetPhase(w, i, Begun)
    case Read(i) => SetPhase(w, i, Decide(w.tasks[i].request, TextOf(w.files, w.tasks[i].key)))
    case Save(i, ok) => if ok then Store(w, i) else SetPhase(w, i, Done(WriteFailed))
    case Finish(i, ok) => SetPhase(w, i, Done(if ok then Saved else Unread))
    case CleanUp(i) => Remove(w, i)
  }

  // ----- order -----

  predicate Active(p: Phase) { p.Begun? || p.Writing? || p.Written? }

  /** Of the writes to one file, only a write whose predecessors are all over has begun. */
  ghost predicate InOrder(w: World) {
    forall i, j :: 0 <= i < j < |w.tasks| && w.tasks[i].key == w.tasks[j].key && !w.tasks[j].phase.Waiting? ==> w.tasks[i].phase.Done?
  }

  /** Each write is chained to the write to its file requested just before it, unless all those are over. */
  ghost predicate Chained(w: World) {
    forall i, j :: 0 <= i < j < |w.tasks| && w.tasks[i].key == w.tasks[j].key ==>
      || w.tasks[i].phase.Done?
      || (w.tasks[j].pred.Some? && i <= w.tasks[j].pred.value < j && w.tasks[w.tasks[j].pred.value].key == w.tasks[j].key)
  }

  /** A chain leads backwards. */
  ghost predicate Backwards(w: World) { forall j :: 0 <= j < |w.tasks| && w.tasks[j].pred.Some? ==> w.tasks[j].pred.value < j }

  /** The chain entry of a file is the last write requested for it; without one, all of them are over. */
  ghost predicate Tailed(w: World) {
    && (forall k :: k in w.tails ==> w.tails[k] < |w.tasks| && w.tasks[w.tails[k]].key == k)
    && (forall i :: 0 <= i < |w.tasks| && !w.tasks[i].phase.Done? ==> w.tasks[i].key in w.tails && i <= w.tails[w.tasks[i].key])
    && (forall i :: 0 <= i < |w.tasks| && w.tasks[i].key in w.tails ==> i <= w.tails[w.tasks[i].key])
  }

  /** A write that has read its file still sees the same text there. */
  ghost predicate Fresh(w: World) {
    forall i :: 0 <= i < |w.tasks| && w.tasks[i].phase.Writing? ==>
      TextOf(w.files, w.tasks[i].key) == w.tasks[i].phase.read && Permits(w.tasks[i].request, w.tasks[i].phase.read, w.tasks[i].phase.next)
  }

  ghost predicate Permits(r: Request, before: Text, after: Text) {
    (r.expected.Some? ==> r.expected.value == before) && r.edit(before) == Some(after)
  }

  /** The text of a file after the first `n` writes. */
  function TextAt(log: seq<Entry>, start: map<Key, Text>, k: Key, n: nat): Text
    requires n <= |log|
  {
    if n == 0 then TextOf(start, k)
    else if log[n - 1].key == k then log[n - 1].after
    else TextAt(log, start, k, n - 1)
  }

  /** The files are what the writes made them, and each write followed from the text it replaced. */
  ghost predicate Sound(files: map<Key, Text>, log: seq<Entry>, start: map<Key, Text>) {
    && (forall k :: TextOf(files, k) == TextAt(log, start, k, |log|))
    && (forall n :: 0 <= n < |log| ==> log[n].before == TextAt(log, start, log[n].key, n))
  }

  predicate Stored(p: Phase) { p.Written? || p == Done(Saved) || p == Done(Unread) }

  /** The log has exactly the writes that were stored, each permitted by its request, in the order requested. */
  ghost predicate Recorded(w: World) {
    && (forall n :: 0 <= n < |w.log| ==>
          var e := w.log[n];
          && e.task < |w.tasks| && w.tasks[e.task].key == e.key && Stored(w.tasks[e.task].phase)
          && Permits(w.tasks[e.task].request, e.before, e.after))
    && (forall i :: 0 <= i < |w.tasks| && Stored(w.tasks[i].phase) ==> exists n :: 0 <= n < |w.log| && w.log[n].task == i)
    && (forall n, m :: 0 <= n < m < |w.log| && w.log[n].key == w.log[m].key ==> w.log[n].task < w.log[m].task)
  }

  ghost predicate Inv(w: World, start: map<Key, Text>) {
    InOrder(w) && Chained(w) && Tailed(w) && Backwards(w) && Fresh(w) && Sound(w.files, w.log, start) && Recorded(w)
  }
}
