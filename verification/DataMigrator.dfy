/** The migration as it runs: file by file, each copied aside and renamed, with a marker rewritten around it. */
module DataMigrator {
  import opened Options
  import opened DataMigration

  function ViewOf(target: map<Path, Node>): Files { imap p | p in target :: target[p] }

  ghost predicate Covered(s: Source, copyDatabase: bool, t: Files, u: Files, p: Path) {
    Wanted(s, copyDatabase, t, p).Some? ==> p in u
  }

  /** One more wanted file keeps the target on its way; a main database must come after its side files. */
  lemma OneMore(s: Source, copyDatabase: bool, t: Files, u: Files, p: Path, n: Node)
    requires Between(s, copyDatabase, t, u) && Wanted(s, copyDatabase, t, p) == Some(n) && p !in u
    requires p.Database? && p.part.Main? ==> forall part :: part != Main ==> Covered(s, copyDatabase, t, u, Database(p.db, part))
    ensures Between(s, copyDatabase, t, u[p := n])
  {
    var v := u[p := n];
    forall db, part | Database(db, Main) in v && Database(db, Main) !in t && Wanted(s, copyDatabase, t, Database(db, part)).Some?
      ensures Database(db, part) in v
    {
      if p == Database(db, Main) {
        assert part == Main || Covered(s, copyDatabase, t, u, Database(p.db, part));
      }
    }
  }

  lemma AllCovered(s: Source, copyDatabase: bool, t: Files, u: Files)
    requires Between(s, copyDatabase, t, u) && forall p :: Covered(s, copyDatabase, t, u, p)
    ensures u == Overlay(s, copyDatabase, t)
  {
    forall p
      ensures p in u <==> p in Overlay(s, copyDatabase, t)
      ensures p in u ==> u[p] == Overlay(s, copyDatabase, t)[p]
    {
      assert Covered(s, copyDatabase, t, u, p);
    }
  }

  /** If the main file of `db` has appeared, it came from one of the sources and so did all its side files. */
  ghost predicate MainComplete(db: Db, was: Files, now: Files, sources: seq<Source>) {
    Database(db, Main) in now && Database(db, Main) !in was ==>
      exists s :: s in sources && IsFile(s, Database(db, Main)) && now[Database(db, Main)] == s.files[Database(db, Main)]
                  && forall part :: IsFile(s, Database(db, part)) ==> Database(db, part) in now
  }

  lemma MainsComeLast(s: Source, copyDatabase: bool, t: Files, u: Files, db: Db)
    requires Between(s, copyDatabase, t, u)
    ensures MainComplete(db, t, u, [s])
  {
    var main := Database(db, Main);
    if main in u && main !in t {
      assert Wanted(s, copyDatabase, t, main) == Some(u[main]);
      forall part | IsFile(s, Database(db, part)) ensures Database(db, part) in u {
        assert Wanted(s, copyDatabase, t, Database(db, part)).Some?;
      }
      assert s in [s];
    }
  }

  lemma MainsStayComplete(db: Db, t: Files, u: Files, v: Files, sources: seq<Source>, s: Source)
    requires Extends(u, v) && s in sources && MainComplete(db, t, u, sources) && MainComplete(db, u, v, [s])
    ensures MainComplete(db, t, v, sources)
  {
    var main := Database(db, Main);
    if main in v && main !in t {
      if main in u {
        var s' :| s' in sources && IsFile(s', main) && u[main] == s'.files[main]
                  && forall part :: IsFile(s', Database(db, part)) ==> Database(db, part) in u;
      } else {
        var s' :| s' in [s] && IsFile(s', main) && v[main] == s'.files[main]
                  && forall part :: IsFile(s', Database(db, part)) ==> Database(db, part) in v;
        assert s' == s;
      }
    }
  }

  ghost predicate AllComplete(was: Files, now: Files, sources: seq<Source>) { forall db :: MainComplete(db, was, now, sources) }

  lemma AllMainsStayComplete(t: Files, u: Files, v: Files, sources: seq<Source>, s: Source)
    requires Extends(u, v) && s in sources && AllComplete(t, u, sources) && AllComplete(u, v, [s])
    ensures AllComplete(t, v, sources)
  {
    forall db ensures MainComplete(db, t, v, sources) {
      MainsStayComplete(db, t, u, v, sources, s);
    }
  }

  ghost predicate EachCovered(s: Source, flag: bool, t: Files, now: Files, paths: set<Path>) {
    forall p <- paths :: Covered(s, flag, t, now, p)
  }

  lemma EachCoveredStays(s: Source, flag: bool, t: Files, was: Files, now: Files, paths: set<Path>)
    requires Extends(was, now)
    ensures EachCovered(s, flag, t, was, paths) ==> EachCovered(s, flag, t, now, paths)
  {
  }

  // ----- attempts, one after the other -----

  datatype Start = Start(before: Files, marked: Marker, after: Files, remarked: Marker, ok: bool)

  /** What one attempt does, however it ends. */
  ghost predicate Made(sources: seq<Source>, a: Start) {
    && Extends(a.before, a.after)
    && Outcome(a.after, a.remarked, sources) == Outcome(a.before, a.marked, sources)
    && (a.ok ==> a.after == Outcome(a.before, a.marked, sources))
    && forall db :: MainComplete(db, a.before, a.after, sources)
  }

  /** Each attempt begins where the one before it was left. */
  ghost predicate InTurn(sources: seq<Source>, attempts: seq<Start>) {
    && (forall i :: 0 <= i < |attempts| ==> Made(sources, attempts[i]))
    && (forall i :: 0 <= i < |attempts| - 1 ==> attempts[i + 1].before == attempts[i].after && attempts[i + 1].marked == attempts[i].remarked)
  }

  /** Any number of attempts, interrupted anywhere and each started again from what the last one left, converge: the
      first that succeeds has made exactly what the very first would have made, no old file has changed, and at every
      point a migrated main database has its side files. */
  lemma {:induction false} InterruptedAttemptsConverge(sources: seq<Source>, attempts: seq<Start>)
    requires attempts != [] && InTurn(sources, attempts)
    ensures var first, last := attempts[0], attempts[|attempts| - 1];
            && Extends(first.before, last.after)
            && Outcome(last.after, last.remarked, sources) == Outcome(first.before, first.marked, sources)
            && (last.ok ==> last.after == Outcome(first.before, first.marked, sources))
            && forall db :: MainComplete(db, first.before, last.after, sources)
  {
    if |attempts| > 1 {
      var front := attempts[..|attempts| - 1];
      InterruptedAttemptsConverge(sources, front);
      var first, last := attempts[0], attempts[|attempts| - 1];
      assert front[|front| - 1].after == last.before && front[|front| - 1].remarked == last.marked;
      forall db ensures MainComplete(db, first.before, last.after, sources) {
        MainsCompleteInTurn(db, first.before, last.before, last.after, sources);
      }
    }
  }

  lemma MainsCompleteInTurn(db: Db, t: Files, u: Files, v: Files, sources: seq<Source>)
    requires Extends(u, v) && MainComplete(db, t, u, sources) && MainComplete(db, u, v, sources)
    ensures MainComplete(db, t, v, sources)
  {
    var main := Database(db, Main);
    if main in v && main !in t && main in u {
      var s :| s in sources && IsFile(s, main) && u[main] == s.files[main]
               && forall part :: IsFile(s, Database(db, part)) ==> Database(db, part) in u;
      assert v[main] == u[main];
    }
  }

  class LegacyMigration {
    const grants: nat -> bool
    var clock: nat
    var target: map<Path, Node>
    var marker: Option<Marker>

    constructor (grants: nat -> bool, target: map<Path, Node>, marker: Option<Marker>)
      ensures this.grants == grants && this.target == target && this.marker == marker && clock == 0
    {
      this.grants, this.target, this.marker, clock := grants, target, marker, 0;
    }

    ghost function View(): Files reads this`target { ViewOf(target) }

    /** Nothing fails from here on. */
    ghost predicate Calm() reads this`clock { forall i :: clock <= i ==> grants(i) }

    method Attempt() returns (ok: bool)
      modifies this`clock
      ensures old(clock) <= clock && (old(Calm()) ==> ok)
    {
      ok := grants(clock);
      clock := clock + 1;
    }

    /** Copied to a temporary name and renamed, the file appears whole or not at all. */
    method Place(p: Path, n: Node) returns (ok: bool)
      modifies this`clock, this`target
      ensures old(clock) <= clock && (old(Calm()) ==> ok)
      ensures target == if ok then old(target)[p := n] else old(target)
    {
      ok := Attempt();
      if !ok { return; }
      ok := Attempt();
      if ok { target := target[p := n]; }
    }

    /** What a copy changes: nothing but, possibly, the appearance of `p`. */
    ghost predicate OnlyAdds(was: Files, now: Files, p: Path) { Extends(was, now) && forall q :: q in now && q !in was ==> q == p }

    method CopyFileIfMissing(s: Source, p: Path, ghost flag: bool, ghost t: Files) returns (ok: bool)
      requires Between(s, flag, t, View())
      requires IsFile(s, p) && p !in View() ==> Wanted(s, flag, t, p) == Some(s.files[p])
      requires !IsFile(s, p) ==> Wanted(s, flag, t, p).None?
      requires p.Database? && p.part.Main? ==> forall part :: part != Main ==> Covered(s, flag, t, View(), Database(p.db, part))
      modifies this`clock, this`target
      ensures old(clock) <= clock && (old(Calm()) ==> ok)
      ensures Between(s, flag, t, View()) && OnlyAdds(old(View()), View(), p)
      ensures ok ==> Covered(s, flag, t, View(), p)
    {
      if !(p in s.files && s.files[p].File?) || p in target { return true; }
      OneMore(s, flag, t, View(), p, s.files[p]);
      ok := Place(p, s.files[p]);
      assert ok ==> View() == old(View())[p := s.files[p]];
    }

    method CopyTreeIfMissing(s: Source, p: Path, ghost flag: bool, ghost t: Files) returns (ok: bool)
      requires Between(s, flag, t, View()) && !p.Database?
      requires IsFolder(s, p) && p !in View() ==> Wanted(s, flag, t, p) == Some(Copied(s.files[p]))
      requires !IsFolder(s, p) ==> Wanted(s, flag, t, p).None?
      modifies this`clock, this`target
      ensures old(clock) <= clock && (old(Calm()) ==> ok)
      ensures Between(s, flag, t, View()) && OnlyAdds(old(View()), View(), p)
      ensures ok ==> Covered(s, flag, t, View(), p)
    {
      if !(p in s.files && s.files[p].Folder?) || p in target { return true; }
      OneMore(s, flag, t, View(), p, Copied(s.files[p]));
      ok := Place(p, Copied(s.files[p]));
      assert ok ==> View() == old(View())[p := Copied(s.files[p])];
    }

    /** Side files first, the main file last; nothing at all if the main file is there. */
    method MigrateDatabaseGroup(s: Source, db: Db, ghost t: Files) returns (ok: bool)
      requires s.kind.Data? && Between(s, true, t, View())
      requires Database(db, Main) in View() <==> Database(db, Main) in t
      modifies this`clock, this`target
      ensures old(clock) <= clock && (old(Calm()) ==> ok)
      ensures Between(s, true, t, View()) && Extends(old(View()), View())
      ensures forall q :: q in View() && q !in old(View()) ==> q.Database? && q.db == db
      ensures ok ==> forall part :: Covered(s, true, t, View(), Database(db, part))
    {
      var main := Database(db, Main);
      if !(main in s.files && s.files[main].File?) || main in target { return true; }
      ok := CopyFileIfMissing(s, Database(db, Wal), true, t);
      if !ok { return; }
      ok := CopyFileIfMissing(s, Database(db, Shm), true, t);
      if !ok { return; }
      ok := CopyFileIfMissing(s, main, true, t);
    }

    method MigrateDatabases(s: Source, ghost t: Files) returns (ok: bool)
      requires s.kind.Data? && Between(s, true, t, View())
      requires forall db :: Database(db, Main) in View() <==> Database(db, Main) in t
      modifies this`clock, this`target
      ensures old(clock) <= clock && (old(Calm()) ==> ok)
      ensures Between(s, true, t, View()) && Extends(old(View()), View())
      ensures ok ==> forall db, part :: Covered(s, true, t, View(), Database(db, part))
    {
      ok := MigrateDatabaseGroup(s, History, t);
      if !ok { return; }
      ok := MigrateDatabaseGroup(s, Profile, t);
      if !ok { return; }
      ok := MigrateDatabaseGroup(s, Legacy, t);
      forall db: Db, part | ok ensures Covered(s, true, t, View(), Database(db, part)) {
        match db { case History => case Profile => case Legacy => }
      }
    }

    method MigrateTrees(s: Source, ghost t: Files) returns (ok: bool)
      requires s.kind.Data? && Between(s, true, t, View())
      modifies this`clock, this`target
      ensures old(clock) <= clock && (old(Calm()) ==> ok)
      ensures Between(s, true, t, View()) && Extends(old(View()), View())
      ensures ok ==> forall tree :: Covered(s, true, t, View(), InTree(tree))
    {
      ok := CopyTreeIfMissing(s, InTree(Attachments), true, t);
      if !ok { return; }
      ok := CopyTreeIfMissing(s, InTree(SubagentIsolation), true, t);
      if !ok { return; }
      ok := CopyTreeIfMissing(s, InTree(Workspaces), true, t);
      forall tree: Tree | ok ensures Covered(s, true, t, View(), InTree(tree)) {
        match tree { case Attachments => case SubagentIsolation => case Workspaces => }
      }
    }

    method MigratePetEntry(s: Source, p: Path, ghost flag: bool, ghost t: Files) returns (ok: bool)
      requires Between(s, flag, t, View()) && p in s.files && (p.Pet? || p.PetCatalog?)
      modifies this`clock, this`target
      ensures old(clock) <= clock && (old(Calm()) ==> ok)
      ensures Between(s, flag, t, View()) && OnlyAdds(old(View()), View(), p)
      ensures ok ==> Covered(s, flag, t, View(), p)
    {
      ok := true;
      if p.Pet? && ValidPetId(p.name) && s.files[p].Folder? && "pet.json" in s.files[p].entries && s.files[p].entries["pet.json"].File? {
        ok := CopyTreeIfMissing(s, p, flag, t);
      } else if p.PetCatalog? {
        ok := CopyFileIfMissing(s, p, flag, t);
      }
    }

    /** The entries are visited in whatever order the file system lists them. */
    method MigratePets(s: Source, ghost flag: bool, ghost t: Files) returns (ok: bool)
      requires Between(s, flag, t, View())
      modifies this`clock, this`target
      ensures old(clock) <= clock && (old(Calm()) ==> ok)
      ensures Between(s, flag, t, View()) && Extends(old(View()), View())
      ensures ok ==> forall p: Path :: p.Pet? || p.PetCatalog? ==> Covered(s, flag, t, View(), p)
    {
      var entries := set p | p in s.files && (p.Pet? || p.PetCatalog?);
      var left := entries;
      ok := true;
      while left != {} && ok
        invariant old(clock) <= clock && (old(Calm()) ==> ok)
        invariant Between(s, flag, t, View()) && Extends(old(View()), View())
        invariant left <= entries && (ok ==> forall p :: p in entries && p !in left ==> Covered(s, flag, t, View(), p))
        decreases |left|
      {
        ghost var was := View();
        var p :| p in left;
        ok := MigratePetEntry(s, p, flag, t);
        left := left - {p};
        assert Extends(was, View());
      }
    }

    method MigrateLog(s: Source, p: Path, ghost flag: bool, ghost t: Files) returns (ok: bool)
      requires s.kind.Data? && Between(s, flag, t, View()) && p in s.files && p.Log?
      modifies this`clock, this`target
      ensures old(clock) <= clock && (old(Calm()) ==> ok)
      ensures Between(s, flag, t, View()) && Extends(old(View()), View())
      ensures ok ==> Covered(s, flag, t, View(), p)
    {
      if !s.files[p].File? || !ValidLogName(p.name) { return true; }
      ok := CopyFileIfMissing(s, p, flag, t);
    }

    method MigrateAgentLogs(s: Source, ghost flag: bool, ghost t: Files) returns (ok: bool)
      requires s.kind.Data? && Between(s, flag, t, View())
      modifies this`clock, this`target
      ensures old(clock) <= clock && (old(Calm()) ==> ok)
      ensures Between(s, flag, t, View()) && Extends(old(View()), View())
      ensures ok ==> forall p: Path :: p.Log? ==> Covered(s, flag, t, View(), p)
    {
      var entries := set p | p in s.files && p.Log?;
      var left := entries;
      ok := true;
      while left != {} && ok
        invariant old(clock) <= clock && (old(Calm()) ==> ok)
        invariant Between(s, flag, t, View()) && Extends(old(View()), View())
        invariant left <= entries && (ok ==> EachCovered(s, flag, t, View(), entries - left))
        decreases |left|
      {
        ghost var was := View();
        var p :| p in left;
        ok := MigrateLog(s, p, flag, t);
        EachCoveredStays(s, flag, t, was, View(), entries - left);
        left := left - {p};
      }
    }

    method MigrateCaches(s: Source, ghost flag: bool, ghost t: Files) returns (ok: bool)
      requires s.kind.Data? && Between(s, flag, t, View())
      modifies this`clock, this`target
      ensures old(clock) <= clock && (old(Calm()) ==> ok)
      ensures Between(s, flag, t, View()) && Extends(old(View()), View())
      ensures ok ==> forall cache :: Covered(s, flag, t, View(), InCache(cache))
    {
      ok := CopyFileIfMissing(s, InCache(ModelsCache), flag, t);
      if !ok { return; }
      ok := CopyFileIfMissing(s, InCache(PiModelsCache), flag, t);
      forall cache: Cache | ok ensures Covered(s, flag, t, View(), InCache(cache)) {
        match cache { case ModelsCache => case PiModelsCache => }
      }
    }

    method MigrateDataRoot(s: Source, copyDatabase: bool) returns (ok: bool)
      requires s.kind.Data?
      modifies this`clock, this`target
      ensures old(clock) <= clock && (old(Calm()) ==> ok)
      ensures Between(s, copyDatabase, old(View()), View())
      ensures ok ==> View() == Overlay(s, copyDatabase, old(View()))
    {
      ghost var t := View();
      if copyDatabase {
        ok := MigrateDatabases(s, t);
        if !ok { return; }
        ok := MigrateTrees(s, t);
        if !ok { return; }
      }
      ok := MigrateCaches(s, copyDatabase, t);
      if !ok { return; }
      ok := MigratePets(s, copyDatabase, t);
      if !ok { return; }
      ok := MigrateAgentLogs(s, copyDatabase, t);
      if ok {
        forall p ensures Covered(s, copyDatabase, t, View(), p) {
          match p
          case Database(db, part) =>
          case InTree(tree) =>
          case InCache(cache) =>
          case Pet(_) =>
          case PetCatalog =>
          case Log(_) =>
        }
        AllCovered(s, copyDatabase, t, View());
      }
    }

    method MigratePetsRoot(s: Source, copyDatabase: bool) returns (ok: bool)
      requires s.kind.Pets?
      modifies this`clock, this`target
      ensures old(clock) <= clock && (old(Calm()) ==> ok)
      ensures Between(s, copyDatabase, old(View()), View())
      ensures ok ==> View() == Overlay(s, copyDatabase, old(View()))
    {
      ghost var t := View();
      ok := MigratePets(s, copyDatabase, t);
      if ok {
        forall p ensures Covered(s, copyDatabase, t, View(), p) {
          if p.Pet? || p.PetCatalog? { assert Covered(s, copyDatabase, t, View(), p); }
        }
        AllCovered(s, copyDatabase, t, View());
      }
    }

    method WriteMarker(m: Marker) returns (ok: bool)
      modifies this`clock, this`marker
      ensures old(clock) <= clock && (old(Calm()) ==> ok)
      ensures marker == if ok then Some(m) else old(marker)
    {
      ok := Attempt();
      if !ok { return; }
      ok := Attempt();
      if ok { marker := Some(m); }
    }

    /** One source: the decision is made durable, the files are copied, the source is ticked off. */
    method MigrateSource(s: Source, completed: set<string>, pending: Option<Pending>, ghost rest: seq<Source>)
      returns (ok: bool, now: Marker)
      requires !Skipped(s, completed) && ReadMarker(marker) == Marker(completed, pending)
      modifies this
      ensures old(clock) <= clock && (old(Calm()) ==> ok)
      ensures Extends(old(View()), View())
      ensures Outcome(View(), ReadMarker(marker), [s] + rest) == old(Outcome(View(), ReadMarker(marker), [s] + rest))
      ensures ok ==> now == ReadMarker(marker) && now.completed == completed + {s.id} && now.pending.None?
      ensures !ok ==> ReadMarker(marker).completed == completed
      ensures forall db :: MainComplete(db, old(View()), View(), [s])
    {
      assert ([s] + rest)[1..] == rest;
      ghost var t := View();
      var copyDatabase := if pending.Some? && pending.value.id == s.id then pending.value.copyDatabase
                          else s.kind.Data? && !(Database(History, Main) in target || Database(Profile, Main) in target || Database(Legacy, Main) in target);
      now := Marker(completed, Some(Pending(s.id, copyDatabase)));
      assert copyDatabase == Decision(s, pending, t) == Decision(s, now.pending, t);
      ok := WriteMarker(now);
      if !ok { return; }
      if s.kind.Data? {
        ok := MigrateDataRoot(s, copyDatabase);
      } else {
        ok := MigratePetsRoot(s, copyDatabase);
      }
      RestartConverges(s, copyDatabase, t, View());
      forall db ensures MainComplete(db, t, View(), [s]) { MainsComeLast(s, copyDatabase, t, View(), db); }
      assert Decision(s, now.pending, View()) == copyDatabase;
      if !ok { return; }
      now := Marker(completed + {s.id}, None);
      ok := WriteMarker(now);
    }

    /** However it ends, the outcome it is heading for is the one it was heading for before; if it succeeds the
        target is that outcome. */
    method MigrateLegacyAgentData(sources: seq<Source>) returns (ok: bool)
      modifies this
      ensures old(clock) <= clock && (old(Calm()) ==> ok)
      ensures Made(sources, Start(old(View()), ReadMarker(old(marker)), View(), ReadMarker(marker), ok))
    {
      ghost var begun, goal := View(), Outcome(View(), ReadMarker(marker), sources);
      var now := ReadMarker(marker);
      ok := true;
      var i := 0;
      assert sources[0..] == sources;
      while i < |sources| && ok
        invariant old(clock) <= clock && (old(Calm()) ==> ok)
        invariant i <= |sources| && (ok ==> now == ReadMarker(marker))
        invariant forall j :: 0 <= j < i ==> Skipped(sources[j], ReadMarker(marker).completed)
        invariant Extends(begun, View())
        invariant Outcome(View(), ReadMarker(marker), sources[i..]) == goal
        invariant AllComplete(begun, View(), sources)
        decreases |sources| - i, if ok then 1 else 0
      {
        var s := sources[i];
        assert sources[i..] == [s] + sources[i + 1..] && sources[i..][1..] == sources[i + 1..];
        if s.inPlace || s.id in now.completed || !s.present {
          i := i + 1;
        } else {
          ghost var was := View();
          ok, now := MigrateSource(s, now.completed, now.pending, sources[i + 1..]);
          AllMainsStayComplete(begun, was, View(), sources, s);
          if ok { i := i + 1; }
        }
      }
      SkippedPrefix(View(), ReadMarker(marker), sources, i);
    }
  }
}
