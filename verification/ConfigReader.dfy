/** The reading of the effective configuration: the loops that merge the layers and note where each leaf is from. */
module ConfigReader {
  import opened Options
  import opened ConfigMerge

  ghost predicate MergedAt(base: Value, next: Value, k: string, v: Value)
    requires base.Obj? && next.Obj? && k in next.fields
  {
    if k in base.fields && base.fields[k].Obj? && next.fields[k].Obj? then v == Merge(base.fields[k], next.fields[k]) else v == next.fields[k]
  }

  lemma AllMerged(base: Value, next: Value, fields: map<string, Value>)
    requires base.Obj? && next.Obj? && fields.Keys == base.fields.Keys + next.fields.Keys
    requires forall k :: k in fields ==> if k in next.fields then MergedAt(base, next, k, fields[k]) else fields[k] == base.fields[k]
    ensures Obj(fields) == Merge(base, next)
  {
    assert fields == Merge(base, next).fields;
  }

  /** The keys of `next` outside `left` are merged, the others are still as in `base`. */
  ghost predicate MergedSoFar(base: Value, next: Value, left: set<string>, fields: map<string, Value>)
    requires base.Obj? && next.Obj?
  {
    && left <= next.fields.Keys
    && fields.Keys == base.fields.Keys + (next.fields.Keys - left)
    && forall k :: k in fields ==>
         if k in next.fields && k !in left then MergedAt(base, next, k, fields[k]) else k in base.fields && fields[k] == base.fields[k]
  }

  lemma OneMoreMerged(base: Value, next: Value, left: set<string>, fields: map<string, Value>, key: string, v: Value)
    requires base.Obj? && next.Obj? && MergedSoFar(base, next, left, fields) && key in left && MergedAt(base, next, key, v)
    ensures MergedSoFar(base, next, left - {key}, fields[key := v])
  {
  }

  method MergeConfig(base: Value, next: Value) returns (output: Value)
    requires base.Obj? && next.Obj?
    ensures output == Merge(base, next)
    decreases next
  {
    var fields := base.fields;
    var left := next.fields.Keys;
    while left != {}
      invariant MergedSoFar(base, next, left, fields)
      decreases |left|
    {
      var key :| key in left;
      var value := next.fields[key];
      if key in fields && fields[key].Obj? && value.Obj? {
        value := MergeConfig(fields[key], value);
      }
      OneMoreMerged(base, next, left, fields, key, value);
      fields, left := fields[key := value], left - {key};
    }
    AllMerged(base, next, fields);
    output := Obj(fields);
  }

  /** A leaf of `v` under one of the keys in `keys`, by name. */
  ghost predicate NamedIn(v: Value, keys: set<string>, prefix: Path, name: string) {
    exists p :: LeafAt(v, p) && p != [] && p[0] in keys && Join(prefix + p) == name
  }

  lemma NamedInOne(v: Value, key: string, prefix: Path, name: string)
    requires v.Obj? && key in v.fields
    ensures NamedIn(v, {key}, prefix, name) <==>
            if v.fields[key].Obj? then Named(v.fields[key], prefix + [key], name) else name == Join(prefix + [key])
  {
    if NamedIn(v, {key}, prefix, name) { NameSplits(v, key, prefix, name); }
    var child := v.fields[key];
    if child.Leaf? {
      assert LeafAt(v, [key]);
    } else if Named(child, prefix + [key], name) {
      var q :| LeafAt(child, q) && q != [] && Join(prefix + [key] + q) == name;
      NameExtends(v, key, prefix, q);
    }
  }

  lemma NameSplits(v: Value, key: string, prefix: Path, name: string)
    requires v.Obj? && key in v.fields && NamedIn(v, {key}, prefix, name)
    ensures if v.fields[key].Obj? then Named(v.fields[key], prefix + [key], name) else name == Join(prefix + [key])
  {
    var child := v.fields[key];
    var p :| LeafAt(v, p) && p != [] && p[0] in {key} && Join(prefix + p) == name;
    assert ValueAt(v, p) == ValueAt(child, p[1..]);
    assert prefix + p == prefix + [key] + p[1..];
    if p[1..] == [] { assert prefix + p == prefix + [key]; }
  }

  lemma NameExtends(v: Value, key: string, prefix: Path, q: Path)
    requires v.Obj? && key in v.fields && LeafAt(v.fields[key], q)
    ensures NamedIn(v, {key}, prefix, Join(prefix + [key] + q))
  {
    var p := [key] + q;
    assert p[1..] == q && prefix + p == prefix + [key] + q;
    assert LeafAt(v, p);
  }

  lemma NamedInMore(v: Value, keys: set<string>, key: string, prefix: Path, name: string)
    ensures NamedIn(v, keys + {key}, prefix, name) <==> NamedIn(v, keys, prefix, name) || NamedIn(v, {key}, prefix, name)
  {
  }

  lemma NamedInAll(v: Value, prefix: Path, name: string)
    requires v.Obj?
    ensures NamedIn(v, v.fields.Keys, prefix, name) <==> Named(v, prefix, name)
  {
  }

  method CollectOrigins(v: Value, scope: Scope, before: map<string, Scope>, prefix: Path) returns (output: map<string, Scope>)
    requires v.Obj?
    ensures Collected(v, scope, prefix, before, output)
    decreases v
  {
    output := before;
    var left := v.fields.Keys;
    while left != {}
      invariant left <= v.fields.Keys
      invariant forall name :: NamedIn(v, v.fields.Keys - left, prefix, name) ==> name in output && output[name] == scope
      invariant forall name :: !NamedIn(v, v.fields.Keys - left, prefix, name) ==>
                  (name in output <==> name in before) && (name in output ==> output[name] == before[name])
      decreases |left|
    {
      var key :| key in left;
      var child := v.fields[key];
      var path := prefix + [key];
      ghost var done := v.fields.Keys - left;
      forall name ensures NamedIn(v, done + {key}, prefix, name) <==> NamedIn(v, done, prefix, name) || NamedIn(v, {key}, prefix, name) {
        NamedInMore(v, done, key, prefix, name);
      }
      forall name
        ensures NamedIn(v, {key}, prefix, name) <==> if child.Obj? then Named(child, path, name) else name == Join(path)
      {
        NamedInOne(v, key, prefix, name);
      }
      if child.Obj? {
        output := CollectOrigins(child, scope, output, path);
      } else {
        output := output[Join(path) := scope];
      }
      left := left - {key};
      assert v.fields.Keys - left == done + {key};
    }
    forall name ensures NamedIn(v, v.fields.Keys, prefix, name) <==> Named(v, prefix, name) {
      NamedInAll(v, prefix, name);
    }
    assert v.fields.Keys - left == v.fields.Keys;
  }

  /** The keys that describe a configuration file rather than configure anything. */
  const FILE_KEYS := {"schema_version", "profile", "display_name", "description", "projects"}

  function Runtime(v: Value): (r: Value)
    requires v.Obj?
    ensures r.Obj?
  {
    Obj(map k | k in v.fields && k !in FILE_KEYS :: v.fields[k])
  }

  /** The layers that count: an untrusted project does not. */
  function LayersOf(defaults: Value, user: Value, profile: Option<Value>, project: Option<Value>, trusted: bool): (r: seq<Layer>)
    requires defaults.Obj? && user.Obj? && (profile.Some? ==> profile.value.Obj?) && (project.Some? ==> project.value.Obj?)
    ensures |r| > 0 && Objects(r)
    ensures forall a, b :: 0 <= a < b < |r| ==> r[a].scope != r[b].scope
  {
    [Layer(Defaults, defaults), Layer(User, Runtime(user))]
    + (if profile.Some? then [Layer(Profile, Runtime(profile.value))] else [])
    + (if project.Some? && trusted then [Layer(Project, project.value)] else [])
  }

  // ----- what the result is, told by the arguments alone -----

  /** The first key of the path configures something. */
  predicate Configures(p: Path) {
    p != [] && p[0] != "schema_version" && p[0] != "profile" && p[0] != "display_name" && p[0] != "description" && p[0] != "projects"
  }

  /** What the value of one source is at a path: its leaf there, or `Hidden` if it covers the path otherwise. */
  datatype Sight = Shown(value: Value) | Hidden | Unseen

  ghost function SightOf(v: Value, p: Path): Sight {
    if LeafAt(v, p) then Shown(ValueAt(v, p).value) else if Covers(v, p) then Hidden else Unseen
  }

  /** A file is not looked at under the keys that describe it. */
  ghost function SightOfFile(v: Value, p: Path): Sight {
    if p == [] then Hidden else if Configures(p) then SightOf(v, p) else Unseen
  }

  /** The leaf at a path comes from a trusted project, or else from the profile, or else from the user's file, or else from
      the defaults; whichever covers the path first decides. */
  ghost function Effective(defaults: Value, user: Value, profile: Option<Value>, project: Option<Value>, trusted: bool, p: Path): Sight {
    var byProject := if project.Some? && trusted then SightOf(project.value, p) else Unseen;
    var byProfile := if profile.Some? then SightOfFile(profile.value, p) else Unseen;
    var byUser := SightOfFile(user, p);
    if byProject != Unseen then byProject
    else if byProfile != Unseen then byProfile
    else if byUser != Unseen then byUser
    else SightOf(defaults, p)
  }

  ghost predicate Resolved(defaults: Value, user: Value, profile: Option<Value>, project: Option<Value>, trusted: bool, config: Value) {
    forall p: Path ::
      match Effective(defaults, user, profile, project, trusted, p)
      case Shown(v) => LeafAt(config, p) && ValueAt(config, p).value == v
      case _ => !LeafAt(config, p)
  }

  /** A leaf of a file has this name. */
  ghost predicate NamedInFile(v: Value, name: string) { exists p :: LeafAt(v, p) && Configures(p) && Join(p) == name }

  ghost predicate NamedAtAll(v: Value, name: string) { exists p :: LeafAt(v, p) && p != [] && Join(p) == name }

  ghost function Source(defaults: Value, user: Value, profile: Option<Value>, project: Option<Value>, trusted: bool, name: string): Option<Scope> {
    if project.Some? && trusted && NamedAtAll(project.value, name) then Some(Project)
    else if profile.Some? && NamedInFile(profile.value, name) then Some(Profile)
    else if NamedInFile(user, name) then Some(User)
    else if NamedAtAll(defaults, name) then Some(Defaults)
    else None
  }

  ghost predicate Attributed(defaults: Value, user: Value, profile: Option<Value>, project: Option<Value>, trusted: bool, origins: map<string, Scope>) {
    forall name :: match Source(defaults, user, profile, project, trusted, name)
                   case Some(scope) => name in origins && origins[name] == scope
                   case None => name !in origins
  }

  lemma RuntimeAt(v: Value, p: Path)
    requires v.Obj? && p != []
    ensures ValueAt(Runtime(v), p) == if Configures(p) then ValueAt(v, p) else None
  {
  }

  lemma RuntimeSight(v: Value, p: Path)
    requires v.Obj?
    ensures SightOf(Runtime(v), p) == SightOfFile(v, p)
  {
    if p != [] {
      RuntimeAt(v, p);
      forall i | 0 < i < |p| ensures ValueAt(Runtime(v), p[..i]) == if Configures(p) then ValueAt(v, p[..i]) else None {
        RuntimeAt(v, p[..i]);
      }
      assert !LeafAt(v, p[..0]) && !LeafAt(Runtime(v), p[..0]);
      if i :| 0 <= i < |p| && LeafAt(v, p[..i]) && Configures(p) { assert LeafAt(Runtime(v), p[..i]); }
      if i :| 0 <= i < |p| && LeafAt(Runtime(v), p[..i]) { assert i > 0 && LeafAt(v, p[..i]); }
    }
  }

  /** A merge shows what the later value shows, and where that sees nothing what the earlier one shows. */
  lemma MergeSight(base: Value, next: Value, p: Path)
    requires base.Obj? && next.Obj?
    ensures SightOf(next, p).Shown? ==> SightOf(Merge(base, next), p) == SightOf(next, p)
    ensures SightOf(next, p).Hidden? ==> !SightOf(Merge(base, next), p).Shown?
    ensures SightOf(next, p).Unseen? ==> (SightOf(Merge(base, next), p).Shown? <==> SightOf(base, p).Shown?)
    ensures SightOf(next, p).Unseen? && SightOf(base, p).Shown? ==> SightOf(Merge(base, next), p) == SightOf(base, p)
  {
    MergeHasExactly(base, next, p);
    MergedLeaf(base, next, p);
  }

  /** The merge of the layers that count shows exactly what the arguments resolve to. */
  lemma LayersResolve(defaults: Value, user: Value, profile: Option<Value>, project: Option<Value>, trusted: bool)
    requires defaults.Obj? && user.Obj? && (profile.Some? ==> profile.value.Obj?) && (project.Some? ==> project.value.Obj?)
    ensures Resolved(defaults, user, profile, project, trusted, MergeAll(LayersOf(defaults, user, profile, project, trusted)))
  {
    var layers := LayersOf(defaults, user, profile, project, trusted);
    var two := Merge(defaults, Runtime(user));
    var three := if profile.Some? then Merge(two, Runtime(profile.value)) else two;
    var four := if project.Some? && trusted then Merge(three, project.value) else three;
    MergedStepwise(defaults, user, profile, project, trusted);
    forall p: Path
      ensures match Effective(defaults, user, profile, project, trusted, p)
              case Shown(v) => LeafAt(four, p) && ValueAt(four, p).value == v
              case _ => !LeafAt(four, p)
    {
      RuntimeSight(user, p);
      MergeSight(defaults, Runtime(user), p);
      if profile.Some? {
        RuntimeSight(profile.value, p);
        MergeSight(two, Runtime(profile.value), p);
      }
      if project.Some? && trusted { MergeSight(three, project.value, p); }
    }
  }

  lemma MergedStepwise(defaults: Value, user: Value, profile: Option<Value>, project: Option<Value>, trusted: bool)
    requires defaults.Obj? && user.Obj? && (profile.Some? ==> profile.value.Obj?) && (project.Some? ==> project.value.Obj?)
    ensures var two := Merge(defaults, Runtime(user));
            var three := if profile.Some? then Merge(two, Runtime(profile.value)) else two;
            MergeAll(LayersOf(defaults, user, profile, project, trusted)) == if project.Some? && trusted then Merge(three, project.value) else three
  {
    var first, second := Layer(Defaults, defaults), Layer(User, Runtime(user));
    assert MergeAll([first]) == defaults;
    assert [first, second][..1] == [first];
    assert MergeAll([first, second]) == Merge(defaults, Runtime(user));
    var upper := [first, second] + (if profile.Some? then [Layer(Profile, Runtime(profile.value))] else []);
    if profile.Some? { assert upper[..2] == [first, second]; } else { assert upper == [first, second]; }
    var layers := LayersOf(defaults, user, profile, project, trusted);
    if project.Some? && trusted { assert layers[..|layers| - 1] == upper; } else { assert layers == upper; }
  }

  // ----- and the origins -----

  lemma NamesAlike(v: Value, name: string)
    requires v.Obj?
    ensures Named(v, [], name) <==> NamedAtAll(v, name)
    ensures Named(Runtime(v), [], name) <==> NamedInFile(v, name)
  {
    forall p: Path ensures [] + p == p {}
    if p :| LeafAt(Runtime(v), p) && p != [] && Join([] + p) == name { RuntimeAt(v, p); }
    if p :| LeafAt(v, p) && Configures(p) && Join(p) == name {
      RuntimeAt(v, p);
      assert LeafAt(Runtime(v), p) && Join([] + p) == name;
    }
    if p :| LeafAt(v, p) && p != [] && Join(p) == name { assert Join([] + p) == name; }
    if p :| LeafAt(v, p) && p != [] && Join([] + p) == name { assert Join(p) == name; }
  }

  /** One source after the other, each attributing its leaves, attributes as the arguments say. */
  lemma SourcesAttribute(defaults: Value, user: Value, profile: Option<Value>, project: Option<Value>, trusted: bool,
                         one: map<string, Scope>, two: map<string, Scope>, three: map<string, Scope>, four: map<string, Scope>)
    requires defaults.Obj? && user.Obj? && (profile.Some? ==> profile.value.Obj?) && (project.Some? ==> project.value.Obj?)
    requires Collected(defaults, Defaults, [], map[], one) && Collected(Runtime(user), User, [], one, two)
    requires if profile.Some? then Collected(Runtime(profile.value), Profile, [], two, three) else three == two
    requires if project.Some? && trusted then Collected(project.value, Project, [], three, four) else four == three
    ensures Attributed(defaults, user, profile, project, trusted, four)
  {
    forall name
      ensures match Source(defaults, user, profile, project, trusted, name)
              case Some(scope) => name in four && four[name] == scope
              case None => name !in four
    {
      NamesAlike(defaults, name);
      NamesAlike(user, name);
      if profile.Some? { NamesAlike(profile.value, name); }
      if project.Some? { NamesAlike(project.value, name); }
    }
  }

  lemma OneLayerMore(layers: seq<Layer>, layer: Layer, before: map<string, Scope>, after: map<string, Scope>)
    requires |layers| > 0 && Objects(layers) && layer.config.Obj?
    requires Originates(layers, before) && Collected(layer.config, layer.scope, [], before, after)
    ensures Originates(layers + [layer], after) && MergeAll(layers + [layer]) == Merge(MergeAll(layers), layer.config)
  {
    assert (layers + [layer])[..|layers|] == layers;
  }

  method Read(defaults: Value, user: Value, profile: Option<Value>, project: Option<Value>, trusted: bool)
    returns (config: Value, origins: map<string, Scope>)
    requires defaults.Obj? && user.Obj? && (profile.Some? ==> profile.value.Obj?) && (project.Some? ==> project.value.Obj?)
    ensures var layers := LayersOf(defaults, user, profile, project, trusted);
            config == MergeAll(layers) && Originates(layers, origins)
    ensures Resolved(defaults, user, profile, project, trusted, config)
    ensures Attributed(defaults, user, profile, project, trusted, origins)
    ensures !trusted ==> config == MergeAll(LayersOf(defaults, user, profile, None, true))
                         && Resolved(defaults, user, profile, None, true, config) && Attributed(defaults, user, profile, None, true, origins)
  {
    origins := CollectOrigins(defaults, Defaults, map[], []);
    ghost var layers := [Layer(Defaults, defaults)];
    assert layers[..0] == [] && Originates([], map[]);
    ghost var one := origins;
    var userRuntime := Runtime(user);
    origins := CollectOrigins(userRuntime, User, origins, []);
    config := MergeConfig(defaults, userRuntime);
    OneLayerMore(layers, Layer(User, userRuntime), one, origins);
    layers := layers + [Layer(User, userRuntime)];
    ghost var two := origins;
    if profile.Some? {
      var profileRuntime := Runtime(profile.value);
      config := MergeConfig(config, profileRuntime);
      origins := CollectOrigins(profileRuntime, Profile, origins, []);
      OneLayerMore(layers, Layer(Profile, profileRuntime), two, origins);
      layers := layers + [Layer(Profile, profileRuntime)];
    }
    ghost var three := origins;
    if project.Some? && trusted {
      config := MergeConfig(config, project.value);
      origins := CollectOrigins(project.value, Project, origins, []);
      OneLayerMore(layers, Layer(Project, project.value), three, origins);
      layers := layers + [Layer(Project, project.value)];
    }
    assert layers == LayersOf(defaults, user, profile, project, trusted);
    LayersResolve(defaults, user, profile, project, trusted);
    SourcesAttribute(defaults, user, profile, project, trusted, one, two, three, origins);
    if !trusted {
      LayersResolve(defaults, user, profile, None, true);
      SourcesAttribute(defaults, user, profile, None, true, one, two, three, origins);
    }
  }
}
