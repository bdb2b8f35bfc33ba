/** What a migration and a relocation bring to the new directory, file by file. */
module DataContents {
  import opened Options
  import opened DataMigration
  import R = DataRelocation

  /** What is found in `n` when the names of `route` are followed. */
  function Find(n: Node, route: seq<string>): Option<Node>
    decreases |route|
  {
    if route == [] then Some(n)
    else if n.Folder? && route[0] in n.entries then Find(n.entries[route[0]], route[1..])
    else None
  }

  /** The two hold the same files with the same contents in the same folders; other entries do not matter. */
  ghost predicate SameFiles(a: Node, b: Node) {
    forall route ::
      && (Find(a, route) != None && Find(a, route).value.File? ==> Find(b, route) == Find(a, route))
      && (Find(b, route) != None && Find(b, route).value.File? ==> Find(a, route) == Find(b, route))
      && ((Find(a, route) != None && Find(a, route).value.Folder?) <==> (Find(b, route) != None && Find(b, route).value.Folder?))
  }

  ghost predicate Plain(n: Node) { forall route :: Find(n, route) == None || !Find(n, route).value.Special? }

  lemma {:induction false} CopiedFinds(n: Node, route: seq<string>)
    requires !n.Special?
    ensures match Find(n, route)
            case None => Find(Copied(n), route) == None
            case Some(File(content)) => Find(Copied(n), route) == Some(File(content))
            case Some(Folder(_)) => Find(Copied(n), route) != None && Find(Copied(n), route).value.Folder?
            case Some(Special) => Find(Copied(n), route) == None
    decreases |route|
  {
    if route != [] && n.Folder? && route[0] in n.entries {
      var name := route[0];
      assert name in Copied(n).entries <==> !n.entries[name].Special?;
      if n.entries[name].Special? {
        assert Find(Special, route[1..]) == None || Find(Special, route[1..]) == Some(Special);
        assert Find(n, route) == Find(Special, route[1..]) && Find(Copied(n), route) == None;
      } else {
        assert Copied(n).entries[name] == Copied(n.entries[name]);
        CopiedFinds(n.entries[name], route[1..]);
      }
    }
  }

  /** A copy of a file or a folder has the same folders with the same files, at any depth, and nothing else. */
  lemma CopiedIsSame(n: Node)
    requires !n.Special?
    ensures SameFiles(n, Copied(n)) && Plain(Copied(n))
  {
    forall route ensures Find(Copied(n), route) == None || !Find(Copied(n), route).value.Special?
    {
      CopiedFinds(n, route);
    }
    forall route
      ensures Find(n, route) != None && Find(n, route).value.File? ==> Find(Copied(n), route) == Find(n, route)
      ensures Find(Copied(n), route) != None && Find(Copied(n), route).value.File? ==> Find(n, route) == Find(Copied(n), route)
      ensures (Find(n, route) != None && Find(n, route).value.Folder?) <==> (Find(Copied(n), route) != None && Find(Copied(n), route).value.Folder?)
    {
      CopiedFinds(n, route);
    }
  }

  // ----- one source -----

  ghost predicate Digits(s: string) { s != "" && forall i :: 0 <= i < |s| ==> '0' <= s[i] <= '9' }

  ghost predicate LogName(name: string) { name == "agent.jsonl" || exists number :: Digits(number) && name == "agent." + number + ".jsonl" }

  ghost predicate PetName(name: string) {
    && 0 < |name| < 65 && name[0] != '-'
    && forall i :: 0 <= i < |name| ==> name[i] == '-' || 'a' <= name[i] <= 'z' || '0' <= name[i] <= '9'
  }

  /** What a source gives to a target that has nothing at `p`: pets and the catalogue from either kind of source, caches
      and logs from a data directory, databases and what belongs to them only if that was decided. */
  ghost predicate Gives(s: Source, copyDatabase: bool, t: Files, p: Path) {
    && p in s.files
    && (s.kind == Pets ==> p.Pet? || p == PetCatalog)
    && (p.InTree? || p.Pet? <==> s.files[p].Folder?)
    && !s.files[p].Special?
    && (p.Database? || p.InTree? ==> copyDatabase)
    && (p.Database? ==> Database(p.db, Main) !in t && Database(p.db, Main) in s.files && s.files[Database(p.db, Main)].File?)
    && (p.Log? ==> LogName(p.name))
    && (p.Pet? ==> PetName(p.name) && exists content :: Find(s.files[p], ["pet.json"]) == Some(File(content)))
  }

  lemma LogNames(name: string)
    ensures ValidLogName(name) <==> LogName(name)
  {
    if ValidLogName(name) && name != "agent.jsonl" {
      var number := name[|"agent."|..|name| - |".jsonl"|];
      assert Digits(number) && name == "agent." + number + ".jsonl";
    }
    if number :| Digits(number) && name == "agent." + number + ".jsonl" {
      assert name[|name| - |".jsonl"|..] == ".jsonl" && name[..|"agent."|] == "agent.";
      forall i | |"agent."| <= i < |name| - |".jsonl"| ensures '0' <= name[i] <= '9' { assert name[i] == number[i - |"agent."|]; }
    }
  }

  lemma PetGiven(s: Source, copyDatabase: bool, t: Files, p: Path)
    requires p.Pet?
    ensures IsPet(s, p) <==> Gives(s, copyDatabase, t, p)
  {
    if p in s.files && s.files[p].Folder? && "pet.json" in s.files[p].entries {
      var n := s.files[p].entries["pet.json"];
      assert ["pet.json"][1..] == [] && Find(s.files[p], ["pet.json"]) == Find(n, []) == Some(n);
      if n.File? { assert Find(s.files[p], ["pet.json"]) == Some(File(n.content)); }
    }
  }

  lemma WantedIsGiven(s: Source, copyDatabase: bool, t: Files, p: Path)
    ensures Wanted(s, copyDatabase, t, p).Some? <==> Gives(s, copyDatabase, t, p)
    ensures Gives(s, copyDatabase, t, p) ==> SameFiles(s.files[p], Wanted(s, copyDatabase, t, p).value) && Plain(Wanted(s, copyDatabase, t, p).value)
  {
    if p.Log? { LogNames(p.name); }
    if p.Pet? { PetGiven(s, copyDatabase, t, p); }
    if p in s.files && !s.files[p].Special? { CopiedIsSame(s.files[p]); }
  }

  // ----- a list of sources -----

  /** Dealt with already, not there, the place itself, or listed before. */
  ghost predicate PassedOver(marker: Marker, sources: seq<Source>, i: nat)
    requires i < |sources|
  {
    || sources[i].inPlace || !sources[i].present || sources[i].id in marker.completed
    || exists j :: 0 <= j < i && sources[j].id == sources[i].id && !sources[j].inPlace && sources[j].present
  }

  /** The decision about databases is the one recorded for the first source that is dealt with, if it was recorded for
      that one, or else made by what is there when its turn comes. */
  ghost predicate WithDatabase(marker: Marker, sources: seq<Source>, i: nat, t: Files)
    requires i < |sources|
  {
    if (forall j :: 0 <= j < i ==> PassedOver(marker, sources, j)) && marker.pending.Some? && marker.pending.value.id == sources[i].id
    then marker.pending.value.copyDatabase
    else sources[i].kind == Data && forall db :: Database(db, Main) !in t
  }

  /** Source `i` brings what is at `p`: its turn comes, nothing is there yet, and it has something to give. */
  ghost predicate Brings(t: Files, marker: Marker, sources: seq<Source>, i: nat, p: Path) {
    && i < |sources| && !PassedOver(marker, sources, i)
    && p !in Outcome(t, marker, sources[..i])
    && Gives(sources[i], WithDatabase(marker, sources, i, Outcome(t, marker, sources[..i])), Outcome(t, marker, sources[..i]), p)
  }

  ghost function Later(t: Files, marker: Marker, s: Source): (Files, Marker) {
    if Skipped(s, marker.completed) then (t, marker)
    else (Overlay(s, Decision(s, marker.pending, t), t), Marker(marker.completed + {s.id}, None))
  }

  lemma OutcomeSteps(t: Files, marker: Marker, sources: seq<Source>)
    requires sources != []
    ensures var (u, later) := Later(t, marker, sources[0]); Outcome(t, marker, sources) == Outcome(u, later, sources[1..])
  {
  }

  lemma PrefixSteps(t: Files, marker: Marker, sources: seq<Source>, i: nat)
    requires 0 < i <= |sources|
    ensures var (u, later) := Later(t, marker, sources[0]); Outcome(t, marker, sources[..i]) == Outcome(u, later, sources[1..][..i - 1])
  {
    assert sources[..i][1..] == sources[1..][..i - 1];
    OutcomeSteps(t, marker, sources[..i]);
  }

  lemma PassedOverLater(t: Files, marker: Marker, sources: seq<Source>, i: nat)
    requires 0 < i < |sources|
    ensures PassedOver(Later(t, marker, sources[0]).1, sources[1..], i - 1) <==> PassedOver(marker, sources, i)
  {
    var later, s := Later(t, marker, sources[0]).1, sources[i];
    assert sources[1..][i - 1] == s;
    if j :| 0 <= j < i && sources[j].id == s.id && !sources[j].inPlace && sources[j].present {
      if j > 0 { assert sources[1..][j - 1] == sources[j]; }
    }
    if j :| 0 <= j < i - 1 && sources[1..][j].id == s.id && !sources[1..][j].inPlace && sources[1..][j].present {
      assert sources[j + 1] == sources[1..][j];
    }
  }

  lemma DecisionLater(t: Files, marker: Marker, sources: seq<Source>, i: nat, u: Files)
    requires 0 < i < |sources|
    ensures WithDatabase(Later(t, marker, sources[0]).1, sources[1..], i - 1, u) <==> WithDatabase(marker, sources, i, u)
  {
    var later := Later(t, marker, sources[0]).1;
    forall j | 0 < j < i ensures PassedOver(later, sources[1..], j - 1) <==> PassedOver(marker, sources, j) {
      PassedOverLater(t, marker, sources, j);
    }
    if forall j :: 0 <= j < i - 1 ==> PassedOver(later, sources[1..], j) {
      forall j | 0 < j < i ensures PassedOver(marker, sources, j) { assert PassedOver(later, sources[1..], j - 1); }
    }
    if forall j :: 0 <= j < i ==> PassedOver(marker, sources, j) {
      forall j | 0 <= j < i - 1 ensures PassedOver(later, sources[1..], j) { assert PassedOver(marker, sources, j + 1); }
    }
    assert PassedOver(marker, sources, 0) <==> Skipped(sources[0], marker.completed);
  }

  lemma BringsLater(t: Files, marker: Marker, sources: seq<Source>, i: nat, p: Path)
    requires 0 < i < |sources|
    ensures var (u, later) := Later(t, marker, sources[0]); Brings(u, later, sources[1..], i - 1, p) <==> Brings(t, marker, sources, i, p)
  {
    PrefixSteps(t, marker, sources, i);
    PassedOverLater(t, marker, sources, i);
    DecisionLater(t, marker, sources, i, Outcome(t, marker, sources[..i]));
  }

  lemma BringsFirst(t: Files, marker: Marker, sources: seq<Source>, p: Path)
    requires sources != []
    ensures Brings(t, marker, sources, 0, p) <==> p !in t && p in Later(t, marker, sources[0]).0
    ensures Brings(t, marker, sources, 0, p) ==> SameFiles(sources[0].files[p], Later(t, marker, sources[0]).0[p]) && Plain(Later(t, marker, sources[0]).0[p])
  {
    var s := sources[0];
    assert sources[..0] == [];
    assert PassedOver(marker, sources, 0) <==> Skipped(s, marker.completed);
    assert HasDatabase(t) <==> exists db :: Database(db, Main) in t by {
      if db :| Database(db, Main) in t { assert db == History || db == Profile || db == Legacy; }
    }
    assert WithDatabase(marker, sources, 0, t) <==> Decision(s, marker.pending, t);
    WantedIsGiven(s, Decision(s, marker.pending, t), t, p);
  }

  /** At `p` there is what the target had, or what one of the sources brings, and then the same folders with the same files
      as in that source. */
  ghost predicate Holds(t: Files, marker: Marker, sources: seq<Source>, p: Path, after: Files) {
    && (p in t ==> p in after && after[p] == t[p])
    && (p in after && p !in t <==> exists i: nat :: Brings(t, marker, sources, i, p))
    && forall i: nat :: Brings(t, marker, sources, i, p) ==> p in after && SameFiles(sources[i].files[p], after[p]) && Plain(after[p])
  }

  ghost predicate BringsNext(u: Files, later: Marker, sources: seq<Source>, i: nat, p: Path) {
    i + 1 < |sources| && Brings(u, later, sources[1..], i, p) && sources[1..][i] == sources[i + 1]
  }

  lemma HoldsBefore(t: Files, marker: Marker, sources: seq<Source>, p: Path, after: Files)
    requires sources != []
    requires var (u, later) := Later(t, marker, sources[0]); Holds(u, later, sources[1..], p, after)
    ensures Holds(t, marker, sources, p, after)
  {
    hide SameFiles, Plain, Brings;
    var (u, later) := Later(t, marker, sources[0]);
    BringsFirst(t, marker, sources, p);
    forall i: nat | Brings(t, marker, sources, i, p) ensures i == 0 || BringsNext(u, later, sources, i - 1, p) {
      BringsIn(t, marker, sources, i, p);
      if i > 0 { BringsLater(t, marker, sources, i, p); }
    }
    if i: nat :| Brings(u, later, sources[1..], i, p) {
      BringsIn(u, later, sources[1..], i, p);
      BringsLater(t, marker, sources, i + 1, p);
    }
  }

  lemma BringsIn(t: Files, marker: Marker, sources: seq<Source>, i: nat, p: Path)
    requires Brings(t, marker, sources, i, p)
    ensures i < |sources|
  {
  }

  /** The outcome of a migration, file by file: what the target had stays; at any other place there is something exactly
      if one of the sources brings it, and then the same folders with the same files as in that source. */
  lemma {:induction false} OutcomeHolds(t: Files, marker: Marker, sources: seq<Source>, p: Path)
    ensures Holds(t, marker, sources, p, Outcome(t, marker, sources))
    decreases |sources|
  {
    if sources != [] {
      var (u, later) := Later(t, marker, sources[0]);
      OutcomeSteps(t, marker, sources);
      OutcomeHolds(u, later, sources[1..], p);
      HoldsBefore(t, marker, sources, p, Outcome(t, marker, sources));
    }
  }

  // ----- a relocation -----

  /** A relocated directory has its databases, except the one of the oldest versions, each with its side files and never
      a side file alone, the known folders and the known files. */
  ghost predicate Belongs(source: map<R.Place, Node>, p: R.Place) {
    && p in source
    && (p.InTree? <==> source[p].Folder?)
    && !source[p].Special?
    && (p.Base? ==> p.db != Legacy && R.Base(p.db, Main) in source && source[R.Base(p.db, Main)].File?)
  }

  /** The published directory, file by file: at each place what the source has there, if it belongs, and nothing else. */
  lemma PublishedHolds(source: map<R.Place, Node>, operation: string, p: R.Place)
    ensures var published := R.Published(source, operation);
            && (p in published.files <==> Belongs(source, p))
            && (Belongs(source, p) ==> SameFiles(source[p], published.files[p]) && Plain(published.files[p]))
            && !published.others && published.operation == Some(operation)
  {
    if p in source && !source[p].Special? { CopiedIsSame(source[p]); }
  }
}
