/** Moving the data root: everything is gathered in a staging directory, which becomes the target in one rename. */
module DataRelocation {
  import opened Options
  import DataMigration

  type Node = DataMigration.Node
  type Db = DataMigration.Db
  type Part = DataMigration.Part

  datatype Tree = Attachments | Pets | Skills | Tooling | Workspaces | Logs

  datatype Item = ModelsCache | PiModelsCache | HooksJson | OldMarker

  datatype Place = Base(db: Db, part: Part) | InTree(tree: Tree) | InItem(item: Item)

  /** A data directory: the places that are moved, whether there is anything else in it, and the operation that
      published it. */
  datatype Root = Root(files: map<Place, Node>, others: bool, operation: Option<string>)

  datatype Failure = InvalidOperation | Nested | NoSource | NotEmpty | Interrupted

  predicate IsFileAt(files: map<Place, Node>, p: Place) { p in files && files[p].File? }

  /** Whether a place is moved: a database with its side files, the known trees and the known files. */
  predicate Moves(source: map<Place, Node>, p: Place) {
    match p
    case Base(db, _) => db != Db.Legacy && IsFileAt(source, Base(db, Part.Main)) && IsFileAt(source, p)
    case InTree(_) => p in source && source[p].Folder?
    case InItem(_) => IsFileAt(source, p)
  }

  function Published(source: map<Place, Node>, operation: string): Root {
    Root(map p | p in source && Moves(source, p) :: DataMigration.Copied(source[p]), false, Some(operation))
  }

  predicate ValidOperation(id: string) {
    8 <= |id| <= 128 && forall i :: 0 <= i < |id| ==> 'a' <= id[i] <= 'z' || 'A' <= id[i] <= 'Z' || '0' <= id[i] <= '9' || id[i] == '-'
  }

  predicate Empty(r: Root) { r.files == map[] && !r.others && r.operation.None? }

  class Relocation {
    const grants: nat -> bool
    var clock: nat
    var staging: Option<Root>
    var target: Option<Root>

    constructor (grants: nat -> bool, staging: Option<Root>, target: Option<Root>)
      ensures this.grants == grants && this.staging == staging && this.target == target
    {
      this.grants, this.staging, this.target, clock := grants, staging, target, 0;
    }

    /** Nothing fails from here on. */
    ghost predicate Calm() reads this`clock { forall i :: clock <= i ==> grants(i) }

    method Attempt() returns (ok: bool)
      modifies this`clock
      ensures old(clock) <= clock && (old(Calm()) ==> ok)
    {
      ok := grants(clock);
      clock := clock + 1;
    }

    /** Copies one place into the staging directory, if it is to be moved and not there yet. */
    method CopyIfMissing(source: map<Place, Node>, p: Place, moves: bool) returns (ok: bool)
      requires staging.Some? && (moves ==> p in source)
      modifies this`clock, this`staging
      ensures old(clock) <= clock && (old(Calm()) ==> ok)
      ensures staging.Some? && (!ok ==> staging == old(staging))
      ensures ok && (!moves || p in old(staging).value.files) ==> staging == old(staging)
      ensures ok && moves && p !in old(staging).value.files ==>
                staging == Some(old(staging).value.(files := old(staging).value.files[p := DataMigration.Copied(source[p])]))
    {
      if !moves || p in staging.value.files { return true; }
      ok := Attempt();
      if !ok { return; }
      ok := Attempt();
      if ok { staging := Some(staging.value.(files := staging.value.files[p := DataMigration.Copied(source[p])])); }
    }

    /** What is gathered is exactly what moves, as far as `done` goes. */
    ghost predicate Gathered(source: map<Place, Node>, done: set<Place>)
      reads this`staging
    {
      && staging.Some? && !staging.value.others && staging.value.operation.None?
      && (forall p :: p in staging.value.files <==> p in done && Moves(source, p))
      && (forall p :: p in staging.value.files ==> p in source && staging.value.files[p] == DataMigration.Copied(source[p]))
    }

    method GatherDatabase(source: map<Place, Node>, db: Db, ghost done: set<Place>) returns (ok: bool)
      requires Gathered(source, done) && db != Db.Legacy
      requires Base(db, Part.Wal) !in done && Base(db, Part.Shm) !in done && Base(db, Part.Main) !in done
      modifies this`clock, this`staging
      ensures old(clock) <= clock && (old(Calm()) ==> ok)
      ensures staging.Some?
      ensures ok ==> Gathered(source, done + {Base(db, Part.Wal), Base(db, Part.Shm), Base(db, Part.Main)})
    {
      var main := Base(db, Part.Main);
      if !(main in source && source[main].File?) || main in staging.value.files { return true; }
      ok := CopyIfMissing(source, Base(db, Part.Wal), IsFileAt(source, Base(db, Part.Wal)));
      if !ok { return; }
      ok := CopyIfMissing(source, Base(db, Part.Shm), IsFileAt(source, Base(db, Part.Shm)));
      if !ok { return; }
      ok := CopyIfMissing(source, main, true);
    }

    method GatherAll(source: map<Place, Node>, places: seq<Place>, ghost was: set<Place>) returns (ok: bool, ghost done: set<Place>)
      requires Gathered(source, was)
      requires forall i :: 0 <= i < |places| ==> !places[i].Base?
      modifies this`clock, this`staging
      ensures old(clock) <= clock && (old(Calm()) ==> ok)
      ensures staging.Some?
      ensures ok ==> Gathered(source, done) && done == was + (set p | p in places)
    {
      ok, done := true, was;
      var i := 0;
      while i < |places| && ok
        invariant old(clock) <= clock && (old(Calm()) ==> ok)
        invariant i <= |places| && staging.Some?
        invariant ok ==> Gathered(source, done) && done == was + (set p | p in places[..i])
        decreases |places| - i
      {
        var p := places[i];
        ok := CopyIfMissing(source, p, p in source && (if p.InTree? then source[p].Folder? else source[p].File?));
        done := done + {p};
        i := i + 1;
        assert places[..i] == places[..i - 1] + [p];
      }
      assert places[..|places|] == places;
    }

    method Gather(source: map<Place, Node>, operation: string) returns (ok: bool)
      requires Gathered(source, {})
      modifies this`clock, this`staging
      ensures old(clock) <= clock && (old(Calm()) ==> ok)
      ensures staging.Some?
      ensures ok ==> staging == Some(Published(source, operation))
    {
      ok := GatherDatabase(source, Db.History, {});
      if !ok { return; }
      ok := GatherDatabase(source, Db.Profile, {Base(Db.History, Part.Wal), Base(Db.History, Part.Shm), Base(Db.History, Part.Main)});
      if !ok { return; }
      var trees := [InTree(Attachments), InTree(Pets), InTree(Skills), InTree(Tooling), InTree(Workspaces), InTree(Logs)];
      var items := [InItem(ModelsCache), InItem(PiModelsCache), InItem(HooksJson), InItem(OldMarker)];
      ghost var done;
      ok, done := GatherAll(source, trees, {Base(Db.History, Part.Wal), Base(Db.History, Part.Shm), Base(Db.History, Part.Main)} + {Base(Db.Profile, Part.Wal), Base(Db.Profile, Part.Shm), Base(Db.Profile, Part.Main)});
      if !ok { return; }
      ok, done := GatherAll(source, items, done);
      if !ok { return; }
      ok := Attempt();
      if !ok { return; }
      forall p | Moves(source, p) ensures p in done {
        EveryPlace(p, trees, items);
      }
      AllGathered(source, staging.value.files, operation);
      staging := Some(staging.value.(operation := Some(operation)));
    }

    /** The target changes in one step from absent to complete; before that at most an empty directory goes. */
    method Relocate(source: Option<map<Place, Node>>, samePlace: bool, nested: bool, operation: string) returns (r: Result<(), Failure>)
      modifies this
      ensures r.Ok? && !samePlace ==> target.Some? && target.value.operation == Some(operation)
      ensures r.Ok? ==> target == old(target) || (source.Some? && target == Some(Published(source.value, operation)))
      ensures r.Err? ==> target == old(target) || (target.None? && old(target).Some? && Empty(old(target).value))
      ensures old(target).Some? && old(target).value.operation == Some(operation) ==> target == old(target)
      ensures old(target).Some? && !Empty(old(target).value) ==> target == old(target)
      ensures r == Err(InvalidOperation) <==> !ValidOperation(operation)
      ensures r == Err(Nested) ==> nested && !samePlace
      ensures r == Err(NoSource) ==> source.None? && !samePlace && !nested
      ensures r == Err(NotEmpty) <==> && ValidOperation(operation) && !samePlace && !nested && source.Some?
                                      && old(target).Some? && !Empty(old(target).value) && old(target).value.operation != Some(operation)
      ensures old(Calm()) ==>
                (r.Ok? <==> && ValidOperation(operation)
                            && (samePlace || (!nested && source.Some? && (old(target).None? || Empty(old(target).value)
                                                                          || old(target).value.operation == Some(operation)))))
    {
      if !ValidOperation(operation) { return Err(InvalidOperation); }
      if samePlace { return Ok(()); }
      if nested { return Err(Nested); }
      if source.None? { return Err(NoSource); }
      if target.Some? && target.value.operation == Some(operation) { return Ok(()); }
      var ok;
      if target.Some? {
        if !Empty(target.value) { return Err(NotEmpty); }
        ok := Attempt();
        if !ok { return Err(Interrupted); }
        target := None;
      }
      ok := Attempt();
      if !ok { return Err(Interrupted); }
      staging := None;
      ok := Attempt();
      if ok {
        staging := Some(Root(map[], false, None));
        ok := Gather(source.value, operation);
        if ok {
          ok := Attempt();
          if ok {
            target, staging := staging, None;
            return Ok(());
          }
        }
      }
      var cleaned := Attempt();
      if cleaned { staging := None; }
      return Err(Interrupted);
    }
  }

  lemma AllGathered(source: map<Place, Node>, files: map<Place, Node>, operation: string)
    requires forall p :: p in files <==> Moves(source, p)
    requires forall p :: p in files ==> p in source && files[p] == DataMigration.Copied(source[p])
    ensures files == Published(source, operation).files
  {
    assert forall p :: p in files <==> p in Published(source, operation).files;
  }

  lemma EveryPlace(p: Place, trees: seq<Place>, items: seq<Place>)
    requires trees == [InTree(Attachments), InTree(Pets), InTree(Skills), InTree(Tooling), InTree(Workspaces), InTree(Logs)]
    requires items == [InItem(ModelsCache), InItem(PiModelsCache), InItem(HooksJson), InItem(OldMarker)]
    ensures p.InTree? ==> p in trees
    ensures p.InItem? ==> p in items
    ensures p.Base? && p.db != Db.Legacy ==> p.part == Part.Wal || p.part == Part.Shm || p.part == Part.Main
  {
    if p.InTree? {
      match p.tree
      case Attachments => assert p == trees[0];
      case Pets => assert p == trees[1];
      case Skills => assert p == trees[2];
      case Tooling => assert p == trees[3];
      case Workspaces => assert p == trees[4];
      case Logs => assert p == trees[5];
    }
    if p.InItem? {
      match p.item
      case ModelsCache => assert p == items[0];
      case PiModelsCache => assert p == items[1];
      case HooksJson => assert p == items[2];
      case OldMarker => assert p == items[3];
    }
  }
}
