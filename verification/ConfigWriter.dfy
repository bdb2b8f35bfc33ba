/** The part of the configuration service that writes files: each method is one stretch of code between awaits. */
module ConfigWriter {
  import opened Options
  import opened WriteQueue
  import WriteOrder

  class ConfigService {
    var files: map<Key, Text>
    var tasks: seq<Task>
    var writeQueues: map<Key, nat>
    ghost var log: seq<Entry>

    /** The files as the service found them. */
    ghost const start: map<Key, Text>

    ghost function State(): World reads this { World(files, tasks, writeQueues, log) }

    ghost predicate Valid() reads this { Inv(State(), start) }

    constructor (files: map<Key, Text>)
      ensures State() == World(files, [], map[], []) && start == files && Valid()
    {
      this.files, tasks, writeQueues, log := files, [], map[], [];
      start := files;
    }

    method RequestWrite(k: Key, r: Request)
      requires Valid()
      modifies this
      ensures Valid() && State() == Apply(old(State()), BatchWrite(k, r))
    {
      WriteOrder.ApplyKeepsInv(State(), start, BatchWrite(k, r));
      var pred := if k in writeQueues then Some(writeQueues[k]) else None;
      writeQueues := writeQueues[k := |tasks|];
      tasks := tasks + [Task(k, r, pred, Waiting)];
    }

    method BeginWrite(i: nat)
      requires Valid() && Enabled(State(), Begin(i))
      modifies this
      ensures Valid() && State() == Apply(old(State()), Begin(i))
    {
      WriteOrder.ApplyKeepsInv(State(), start, Begin(i));
      tasks := tasks[i := tasks[i].(phase := Begun)];
    }

    /** Reads the file, compares its version with the expected one and computes the new text. */
    method ReadAndPatch(i: nat)
      requires Valid() && Enabled(State(), Read(i))
      modifies this
      ensures Valid() && State() == Apply(old(State()), Read(i))
    {
      WriteOrder.ApplyKeepsInv(State(), start, Read(i));
      var task := tasks[i];
      var previous := if task.key in files then files[task.key] else "";
      var phase;
      if task.request.expected.Some? && task.request.expected.value != previous {
        phase := Done(Conflict);
      } else {
        var next := task.request.edit(previous);
        phase := if next.None? then Done(Invalid) else Writing(previous, next.value);
      }
      tasks := tasks[i := task.(phase := phase)];
    }

    method WriteAtomically(i: nat, ok: bool)
      requires Valid() && Enabled(State(), Save(i, ok))
      modifies this
      ensures Valid() && State() == Apply(old(State()), Save(i, ok))
    {
      WriteOrder.ApplyKeepsInv(State(), start, Save(i, ok));
      ghost var next := Apply(State(), Save(i, ok));
      StoreText(i, ok, next);
    }

    /** The write itself. */
    method StoreText(i: nat, ok: bool, ghost next: World)
      requires Enabled(State(), Save(i, ok)) && next == Apply(State(), Save(i, ok))
      modifies this
      ensures State() == next
    {
      var task := tasks[i];
      if ok {
        log := log + [Entry(i, task.key, TextOf(files, task.key), task.phase.next)];
        files := files[task.key := task.phase.next];
        tasks := tasks[i := task.(phase := Written)];
      } else {
        tasks := tasks[i := task.(phase := Done(WriteFailed))];
      }
    }

    /** The file is read back; when that fails the write is reported as failed, although it took effect. */
    method FinishWrite(i: nat, ok: bool)
      requires Valid() && Enabled(State(), Finish(i, ok))
      modifies this
      ensures Valid() && State() == Apply(old(State()), Finish(i, ok))
    {
      WriteOrder.ApplyKeepsInv(State(), start, Finish(i, ok));
      tasks := tasks[i := tasks[i].(phase := Done(if ok then Saved else Unread))];
    }

    /** The chain entry goes only if no other write was chained to this one. */
    method RemoveTail(i: nat)
      requires Valid() && Enabled(State(), CleanUp(i))
      modifies this
      ensures Valid() && State() == Apply(old(State()), CleanUp(i))
    {
      WriteOrder.ApplyKeepsInv(State(), start, CleanUp(i));
      var k := tasks[i].key;
      if k in writeQueues && writeQueues[k] == i {
        writeQueues := map x | x in writeQueues && x != k :: writeQueues[x];
      }
    }
  }
}
