/** What the migration of older data directories amounts to, however often it is interrupted. */
module DataMigration {
  import opened Options

  datatype Node = File(content: string) | Folder(entries: map<string, Node>) | Special

  datatype Db = History | Profile | Legacy

  datatype Part = Main | Wal | Shm

  datatype Tree = Attachments | SubagentIsolation | Workspaces

  datatype Cache = ModelsCache | PiModelsCache

  /** The places of a data directory that a migration looks at. */
  datatype Path = Database(db: Db, part: Part) | InTree(tree: Tree) | InCache(cache: Cache) | Pet(name: string) | PetCatalog | Log(name: string)

  type Files = imap<Path, Node>

  datatype Kind = Data | Pets

  /** A directory to migrate from; `inPlace` if it is the place it would be copied to. */
  datatype Source = Source(id: string, kind: Kind, present: bool, inPlace: bool, files: map<Path, Node>)

  datatype Pending = Pending(id: string, copyDatabase: bool)

  datatype Marker = Marker(completed: set<string>, pending: Option<Pending>)

  /** A missing or damaged marker reads as an empty one. */
  function ReadMarker(m: Option<Marker>): Marker { if m.Some? then m.value else Marker({}, None) }

  // ----- what is taken from a source -----

  /** A folder is copied without its special files. */
  function Copied(n: Node): Node {
    match n
    case Folder(entries) => Folder(map k | k in entries && !entries[k].Special? :: Copied(entries[k]))
    case _ => n
  }

  predicate IdChar(c: char) { 'a' <= c <= 'z' || '0' <= c <= '9' }

  predicate ValidPetId(name: string) {
    && 1 <= |name| <= 64
    && IdChar(name[0])
    && forall i :: 1 <= i < |name| ==> IdChar(name[i]) || name[i] == '-'
  }

  predicate ValidLogName(name: string) {
    || name == "agent.jsonl"
    || (&& |name| > |"agent."| + |".jsonl"|
        && name[..|"agent."|] == "agent."
        && name[|name| - |".jsonl"|..] == ".jsonl"
        && forall i :: |"agent."| <= i < |name| - |".jsonl"| ==> '0' <= name[i] <= '9')
  }

  predicate IsFile(s: Source, p: Path) { p in s.files && s.files[p].File? }

  predicate IsFolder(s: Source, p: Path) { p in s.files && s.files[p].Folder? }

  predicate IsPet(s: Source, p: Path) {
    p.Pet? && ValidPetId(p.name) && IsFolder(s, p) && "pet.json" in s.files[p].entries && s.files[p].entries["pet.json"].File?
  }

  /** What a migration into `t` wants at `p`; a database only together with its side files, and only when it is
      not there yet. */
  ghost function Wanted(s: Source, copyDatabase: bool, t: Files, p: Path): Option<Node> {
    match p
    case Database(db, part) =>
      if s.kind.Data? && copyDatabase && IsFile(s, Database(db, Main)) && Database(db, Main) !in t && IsFile(s, p) then Some(s.files[p]) else None
    case InTree(_) => if s.kind.Data? && copyDatabase && IsFolder(s, p) then Some(Copied(s.files[p])) else None
    case InCache(_) => if s.kind.Data? && IsFile(s, p) then Some(s.files[p]) else None
    case Pet(_) => if IsPet(s, p) then Some(Copied(s.files[p])) else None
    case PetCatalog => if IsFile(s, p) then Some(s.files[p]) else None
    case Log(name) => if s.kind.Data? && ValidLogName(name) && IsFile(s, p) then Some(s.files[p]) else None
  }

  /** The target after a complete migration of one source: all it had, and what was wanted and missing. */
  ghost function Overlay(s: Source, copyDatabase: bool, t: Files): Files {
    imap p | p in t || Wanted(s, copyDatabase, t, p).Some? :: if p in t then t[p] else Wanted(s, copyDatabase, t, p).value
  }

  ghost predicate HasDatabase(t: Files) { Database(History, Main) in t || Database(Profile, Main) in t || Database(Legacy, Main) in t }

  ghost predicate Skipped(s: Source, completed: set<string>) { s.inPlace || s.id in completed || !s.present }

  ghost function Decision(s: Source, pending: Option<Pending>, t: Files): bool {
    if pending.Some? && pending.value.id == s.id then pending.value.copyDatabase else s.kind.Data? && !HasDatabase(t)
  }

  /** What the whole migration will have made of `t`. */
  ghost function Outcome(t: Files, marker: Marker, sources: seq<Source>): Files
    decreases |sources|
  {
    if sources == [] then t
    else
      var s := sources[0];
      if Skipped(s, marker.completed) then Outcome(t, marker, sources[1..])
      else Outcome(Overlay(s, Decision(s, marker.pending, t), t), Marker(marker.completed + {s.id}, None), sources[1..])
  }

  // ----- interrupted -----

  ghost predicate Extends(t: Files, u: Files) { forall p :: p in t ==> p in u && u[p] == t[p] }

  /** A migrated main database is there only if its side files are. */
  ghost predicate SidesFirst(s: Source, copyDatabase: bool, t: Files, u: Files) {
    forall db, part :: Database(db, Main) in u && Database(db, Main) !in t && Wanted(s, copyDatabase, t, Database(db, part)).Some? ==>
      Database(db, part) in u
  }

  /** A migration of `s` that began at `t` may have been left at `u`. */
  ghost predicate Between(s: Source, copyDatabase: bool, t: Files, u: Files) {
    && Extends(t, u)
    && (forall p :: p in u && p !in t ==> Wanted(s, copyDatabase, t, p) == Some(u[p]))
    && SidesFirst(s, copyDatabase, t, u)
  }

  /** Wherever it was left, starting again with the same decision leads to the same place. */
  lemma RestartConverges(s: Source, copyDatabase: bool, t: Files, u: Files)
    requires Between(s, copyDatabase, t, u)
    ensures Overlay(s, copyDatabase, u) == Overlay(s, copyDatabase, t)
  {
    forall p
      ensures p in Overlay(s, copyDatabase, u) <==> p in Overlay(s, copyDatabase, t)
      ensures p in Overlay(s, copyDatabase, u) ==> Overlay(s, copyDatabase, u)[p] == Overlay(s, copyDatabase, t)[p]
    {
      if p !in u { WantedAgain(s, copyDatabase, t, u, p); }
    }
  }

  lemma WantedAgain(s: Source, copyDatabase: bool, t: Files, u: Files, p: Path)
    requires Between(s, copyDatabase, t, u) && p !in u
    ensures Wanted(s, copyDatabase, u, p) == Wanted(s, copyDatabase, t, p)
  {
    if p.Database? {
      var main := Database(p.db, Main);
      if main in u && main !in t { assert Wanted(s, copyDatabase, t, Database(p.db, p.part)).None?; }
    }
  }

  /** With another decision it does not: a second start that decided afresh would see the database already
      copied and leave out the rest.  The decision has to be kept in the marker. */
  lemma DecidingAgainWouldNotConverge()
    ensures exists s: Source, t: Files, u: Files ::
              && Between(s, Decision(s, None, t), t, u)
              && Overlay(s, Decision(s, None, u), u) != Overlay(s, Decision(s, None, t), t)
  {
    var s := Source("old", Data, true, false, map[Database(History, Main) := File("h"), Database(Profile, Main) := File("p")]);
    var t: Files := imap[];
    var u: Files := imap[Database(History, Main) := File("h")];
    assert Decision(s, None, t) && !Decision(s, None, u);
    assert Wanted(s, true, t, Database(History, Main)) == Some(File("h"));
    forall db, part | Database(db, Main) in u && Database(db, Main) !in t && Wanted(s, true, t, Database(db, part)).Some?
      ensures Database(db, part) in u
    {
      assert db == History;
      assert Database(db, part) in s.files;
    }
    assert Between(s, true, t, u);
    assert Database(Profile, Main) in Overlay(s, true, t);
    assert Database(Profile, Main) !in Overlay(s, false, u);
    assert Between(s, Decision(s, None, t), t, u) && Overlay(s, Decision(s, None, u), u) != Overlay(s, Decision(s, None, t), t);
  }

  /** Sources already dealt with do not matter. */
  lemma {:induction false} SkippedPrefix(t: Files, marker: Marker, sources: seq<Source>, i: nat)
    requires i <= |sources| && forall j :: 0 <= j < i ==> Skipped(sources[j], marker.completed)
    ensures Outcome(t, marker, sources) == Outcome(t, marker, sources[i..])
  {
    if i == 0 {
      assert sources[0..] == sources;
    } else {
      SkippedPrefix(t, marker, sources[1..], i - 1);
      assert sources[1..][i - 1..] == sources[i..];
    }
  }

  /** The outcome never takes anything away. */
  lemma {:induction false} OutcomeExtends(t: Files, marker: Marker, sources: seq<Source>)
    ensures Extends(t, Outcome(t, marker, sources))
    decreases |sources|
  {
    if sources != [] {
      var s := sources[0];
      if Skipped(s, marker.completed) {
        OutcomeExtends(t, marker, sources[1..]);
      } else {
        var t' := Overlay(s, Decision(s, marker.pending, t), t);
        OutcomeExtends(t', Marker(marker.completed + {s.id}, None), sources[1..]);
        assert Extends(t, t');
      }
    }
  }
}
