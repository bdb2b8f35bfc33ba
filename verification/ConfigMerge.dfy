/** Layered configuration: what the merge of layers holds at each path, and which layer it came from. */
module ConfigMerge {
  import opened Options

  /** Anything that is not an object, an array included, is a leaf. */
  datatype Value = Leaf(value: string) | Obj(fields: map<string, Value>)

  type Path = seq<string>

  function Child(v: Value, k: string): Option<Value> { if v.Obj? && k in v.fields then Some(v.fields[k]) else None }

  function ValueAt(v: Value, p: Path): Option<Value> {
    if p == [] then Some(v)
    else if Child(v, p[0]).None? then None
    else ValueAt(Child(v, p[0]).value, p[1..])
  }

  predicate LeafAt(v: Value, p: Path) { ValueAt(v, p).Some? && ValueAt(v, p).value.Leaf? }

  // ----- merging -----

  function Merge(base: Value, next: Value): (r: Value)
    requires base.Obj? && next.Obj?
    ensures r.Obj? && r.fields.Keys == base.fields.Keys + next.fields.Keys
    decreases next
  {
    Obj(map k | k in base.fields.Keys + next.fields.Keys ::
          if k !in next.fields then base.fields[k]
          else if k in base.fields && base.fields[k].Obj? && next.fields[k].Obj? then Merge(base.fields[k], next.fields[k])
          else next.fields[k])
  }

  /** A leaf of a merge is a leaf of the later value, or else the earlier one's. */
  lemma {:induction false} MergedLeaf(base: Value, next: Value, p: Path)
    requires base.Obj? && next.Obj?
    ensures LeafAt(next, p) ==> ValueAt(Merge(base, next), p) == ValueAt(next, p)
    ensures LeafAt(Merge(base, next), p) && !LeafAt(next, p) ==> ValueAt(Merge(base, next), p) == ValueAt(base, p)
    decreases |p|
  {
    if p != [] {
      var k := p[0];
      if k in base.fields && k in next.fields && base.fields[k].Obj? && next.fields[k].Obj? {
        MergedLeaf(base.fields[k], next.fields[k], p[1..]);
      }
    }
  }

  /** A later value takes the place of a leaf at `p` if it has anything there, or a leaf on the way there. */
  ghost predicate Covers(next: Value, p: Path) {
    ValueAt(next, p).Some? || exists i :: 0 <= i < |p| && LeafAt(next, p[..i])
  }

  lemma CoversBelow(next: Value, p: Path)
    requires p != [] && next.Obj?
    ensures Covers(next, p) <==> p[0] in next.fields && Covers(next.fields[p[0]], p[1..])
  {
    if i :| 0 <= i < |p| && LeafAt(next, p[..i]) {
      assert i > 0 && p[..i][1..] == p[1..][..i - 1];
    }
    if p[0] in next.fields {
      if i :| 0 <= i < |p| - 1 && LeafAt(next.fields[p[0]], p[1..][..i]) {
        assert p[..i + 1][1..] == p[1..][..i];
        assert LeafAt(next, p[..i + 1]);
      }
    }
  }

  lemma LeafIsCovered(next: Value, p: Path)
    requires next.Leaf?
    ensures Covers(next, p)
  {
    if p != [] { assert LeafAt(next, p[..0]); }
  }

  /** Exactly which leaves a merge has. */
  lemma {:induction false} MergeHasExactly(base: Value, next: Value, p: Path)
    requires base.Obj? && next.Obj?
    ensures LeafAt(Merge(base, next), p) <==> LeafAt(next, p) || (LeafAt(base, p) && !Covers(next, p))
    decreases |p|
  {
    if p != [] {
      var k := p[0];
      CoversBelow(next, p);
      if k in next.fields {
        if k in base.fields && base.fields[k].Obj? && next.fields[k].Obj? {
          MergeHasExactly(base.fields[k], next.fields[k], p[1..]);
        } else if next.fields[k].Leaf? {
          LeafIsCovered(next.fields[k], p[1..]);
        } else if p[1..] == [] {
          assert Covers(next.fields[k], p[1..]);
        } else {
          assert k in base.fields && base.fields[k].Leaf? ==> ValueAt(base.fields[k], p[1..]).None?;
        }
      }
    }
  }

  // ----- layers -----

  datatype Scope = Defaults | User | Profile | Project

  datatype Layer = Layer(scope: Scope, config: Value)

  ghost predicate Objects(layers: seq<Layer>) { forall i :: 0 <= i < |layers| ==> layers[i].config.Obj? }

  function MergeAll(layers: seq<Layer>): (r: Value)
    requires |layers| > 0 && Objects(layers)
    ensures r.Obj?
  {
    var last := |layers| - 1;
    if last == 0 then layers[0].config else Merge(MergeAll(layers[..last]), layers[last].config)
  }

  /** `i` is the last layer with a leaf at `p`. */
  ghost predicate LastWithLeaf(layers: seq<Layer>, p: Path, i: nat) {
    && i < |layers| && LeafAt(layers[i].config, p)
    && forall j :: i < j < |layers| ==> !LeafAt(layers[j].config, p)
  }

  /** Every leaf of the merged configuration has the value of the last layer with a leaf at that path. */
  lemma {:induction false} LeafOfLastLayer(layers: seq<Layer>, p: Path) returns (i: nat)
    requires |layers| > 0 && Objects(layers) && LeafAt(MergeAll(layers), p)
    ensures LastWithLeaf(layers, p, i) && ValueAt(MergeAll(layers), p) == ValueAt(layers[i].config, p)
  {
    var last := |layers| - 1;
    if LeafAt(layers[last].config, p) {
      i := last;
      if last > 0 { MergedLeaf(MergeAll(layers[..last]), layers[last].config, p); }
    } else {
      MergedLeaf(MergeAll(layers[..last]), layers[last].config, p);
      i := LeafOfLastLayer(layers[..last], p);
    }
  }

  /** Layer `i` has a leaf at `p` that no later layer covers. */
  ghost predicate Shows(layers: seq<Layer>, p: Path, i: nat) {
    i < |layers| && LeafAt(layers[i].config, p) && forall j :: i < j < |layers| ==> !Covers(layers[j].config, p)
  }

  lemma ShowsInFront(layers: seq<Layer>, p: Path, i: nat)
    requires i < |layers| - 1
    ensures Shows(layers, p, i) <==> Shows(layers[..|layers| - 1], p, i) && !Covers(layers[|layers| - 1].config, p)
  {
    var front := layers[..|layers| - 1];
    assert forall j :: 0 <= j < |front| ==> front[j] == layers[j];
  }

  /** A path is a leaf of the merged configuration exactly when some layer shows it. */
  lemma {:induction false} MergedHasExactly(layers: seq<Layer>, p: Path)
    requires |layers| > 0 && Objects(layers)
    ensures LeafAt(MergeAll(layers), p) <==> exists i :: Shows(layers, p, i)
  {
    var last := |layers| - 1;
    assert LeafAt(layers[last].config, p) <==> Shows(layers, p, last);
    if last > 0 {
      MergedHasExactly(layers[..last], p);
      MergeHasExactly(MergeAll(layers[..last]), layers[last].config, p);
      forall i: nat | i < last ensures Shows(layers, p, i) <==> Shows(layers[..last], p, i) && !Covers(layers[last].config, p) {
        ShowsInFront(layers, p, i);
      }
    }
  }

  // ----- origins -----

  /** The name of a path: its keys, joined by dots. */
  function Join(p: Path): string {
    if p == [] then "" else if |p| == 1 then p[0] else Join(p[..|p| - 1]) + "." + p[|p| - 1]
  }

  ghost predicate Named(v: Value, prefix: Path, name: string) { exists p :: LeafAt(v, p) && p != [] && Join(prefix + p) == name }

  /** `after` is `before` with every leaf below `prefix` attributed to `scope`. */
  ghost predicate Collected(v: Value, scope: Scope, prefix: Path, before: map<string, Scope>, after: map<string, Scope>) {
    && (forall name :: Named(v, prefix, name) ==> name in after && after[name] == scope)
    && (forall name :: !Named(v, prefix, name) ==> (name in after <==> name in before) && (name in after ==> after[name] == before[name]))
  }

  /** The origins after the layers, one after the other. */
  ghost predicate Originates(layers: seq<Layer>, origins: map<string, Scope>) {
    if layers == [] then origins == map[]
    else
      var last := |layers| - 1;
      exists before :: Originates(layers[..last], before) && Collected(layers[last].config, layers[last].scope, [], before, origins)
  }

  ghost predicate LastNamed(layers: seq<Layer>, name: string, i: nat) {
    && i < |layers| && Named(layers[i].config, [], name)
    && forall j :: i < j < |layers| ==> !Named(layers[j].config, [], name)
  }

  /** Whatever the keys look like, a name is attributed to the last layer with a leaf of that name. */
  lemma {:induction false} OriginIsLastNamed(layers: seq<Layer>, origins: map<string, Scope>, name: string, i: nat)
    requires Originates(layers, origins) && LastNamed(layers, name, i)
    ensures name in origins && origins[name] == layers[i].scope
  {
    var last := |layers| - 1;
    var before :| Originates(layers[..last], before) && Collected(layers[last].config, layers[last].scope, [], before, origins);
    if i < last {
      assert LastNamed(layers[..last], name, i);
      OriginIsLastNamed(layers[..last], before, name, i);
    }
  }

  /** And nothing else has an entry. */
  lemma {:induction false} NothingElseIsNamed(layers: seq<Layer>, origins: map<string, Scope>, name: string)
    requires Originates(layers, origins) && forall i :: 0 <= i < |layers| ==> !Named(layers[i].config, [], name)
    ensures name !in origins
  {
    if layers != [] {
      var last := |layers| - 1;
      var before :| Originates(layers[..last], before) && Collected(layers[last].config, layers[last].scope, [], before, origins);
      NothingElseIsNamed(layers[..last], before, name);
    }
  }

  /** Exactly when a leaf is attributed to the layer its value came from: no later layer has a leaf of the same
      name at another path. */
  ghost predicate Unshadowed(layers: seq<Layer>, p: Path, i: nat) {
    forall j :: i < j < |layers| ==> !Named(layers[j].config, [], Join(p))
  }

  lemma OriginsNameTheLayer(layers: seq<Layer>, origins: map<string, Scope>, p: Path) returns (i: nat)
    requires |layers| > 0 && Objects(layers) && LeafAt(MergeAll(layers), p) && Originates(layers, origins)
    requires forall a, b :: 0 <= a < b < |layers| ==> layers[a].scope != layers[b].scope
    ensures LastWithLeaf(layers, p, i) && ValueAt(MergeAll(layers), p) == ValueAt(layers[i].config, p)
    ensures Join(p) in origins
    ensures origins[Join(p)] == layers[i].scope <==> Unshadowed(layers, p, i)
  {
    i := LeafOfLastLayer(layers, p);
    assert p != [] && [] + p == p;
    assert Named(layers[i].config, [], Join(p));
    var j := LastNamedFrom(layers, Join(p), i);
    OriginIsLastNamed(layers, origins, Join(p), j);
  }

  lemma LastNamedFrom(layers: seq<Layer>, name: string, i: nat) returns (j: nat)
    requires i < |layers| && Named(layers[i].config, [], name)
    ensures i <= j && LastNamed(layers, name, j)
    decreases |layers| - i
  {
    if k :| i < k < |layers| && Named(layers[k].config, [], name) {
      j := LastNamedFrom(layers, name, k);
    } else {
      j := i;
    }
  }

  // ----- keys without dots -----

  predicate DotFree(k: string) { forall i :: 0 <= i < |k| ==> k[i] != '.' }

  ghost predicate KeysDotFree(v: Value) { forall p, i :: LeafAt(v, p) && 0 <= i < |p| ==> DotFree(p[i]) }

  lemma OnlyDot(a: string, x: string, i: nat)
    requires DotFree(x) && |a| <= i < |a + "." + x| && (a + "." + x)[i] == '.'
    ensures i == |a|
  {
  }

  lemma DotSplit(a: string, x: string, b: string, y: string)
    requires DotFree(x) && DotFree(y) && a + "." + x == b + "." + y
    ensures a == b && x == y
  {
    var s := a + "." + x;
    assert s[|a|] == '.' && s[|b|] == '.';
    if |a| <= |b| { OnlyDot(a, x, |b|); }
    if |b| <= |a| { OnlyDot(b, y, |a|); }
    assert a == s[..|a|] && b == s[..|b|] && x == s[|a| + 1..] && y == s[|b| + 1..];
  }

  lemma JoinHasDot(p: Path)
    requires |p| > 1
    ensures !DotFree(Join(p))
  {
    assert Join(p)[|Join(p[..|p| - 1])|] == '.';
  }

  /** Paths of dot-free keys have different names. */
  lemma {:induction false} JoinIsInjective(p: Path, q: Path)
    requires p != [] && q != [] && Join(p) == Join(q)
    requires forall i :: 0 <= i < |p| ==> DotFree(p[i])
    requires forall i :: 0 <= i < |q| ==> DotFree(q[i])
    ensures p == q
    decreases |p|
  {
    var n, m := |p| - 1, |q| - 1;
    if n > 0 { JoinHasDot(p); }
    if m > 0 { JoinHasDot(q); }
    if n > 0 && m > 0 {
      DotSplit(Join(p[..n]), p[n], Join(q[..m]), q[m]);
      JoinIsInjective(p[..n], q[..m]);
      assert p == p[..n] + [p[n]] && q == q[..m] + [q[m]];
    } else if n == 0 && m == 0 {
      assert p == [p[0]] && q == [q[0]];
    }
  }

  /** With dot-free keys the merge and the origins, computed apart, agree on every leaf. */
  lemma OriginsAgreeWithMerge(layers: seq<Layer>, origins: map<string, Scope>, p: Path) returns (i: nat)
    requires |layers| > 0 && Objects(layers) && LeafAt(MergeAll(layers), p) && Originates(layers, origins)
    requires forall a, b :: 0 <= a < b < |layers| ==> layers[a].scope != layers[b].scope
    requires forall a :: 0 <= a < |layers| ==> KeysDotFree(layers[a].config)
    ensures LastWithLeaf(layers, p, i) && ValueAt(MergeAll(layers), p) == ValueAt(layers[i].config, p)
    ensures Join(p) in origins && origins[Join(p)] == layers[i].scope
  {
    i := OriginsNameTheLayer(layers, origins, p);
    forall j | i < j < |layers| ensures !Named(layers[j].config, [], Join(p)) {
      if Named(layers[j].config, [], Join(p)) {
        var q :| LeafAt(layers[j].config, q) && q != [] && Join([] + q) == Join(p);
        assert [] + q == q;
        JoinIsInjective(q, p);
        assert false;
      }
    }
  }

  /** With a dot in a key they need not: two paths then share a name. */
  lemma DottedKeysShareAName(origins: map<string, Scope>)
    requires var layers := [Layer(User, Obj(map["a.b" := Leaf("1")])), Layer(Project, Obj(map["a" := Obj(map["b" := Leaf("2")])]))];
             Originates(layers, origins)
    ensures var layers := [Layer(User, Obj(map["a.b" := Leaf("1")])), Layer(Project, Obj(map["a" := Obj(map["b" := Leaf("2")])]))];
            && ValueAt(MergeAll(layers), ["a.b"]) == Some(Leaf("1")) == ValueAt(layers[0].config, ["a.b"])
            && Join(["a.b"]) in origins && origins[Join(["a.b"])] == Project
  {
    var low, high := Obj(map["a.b" := Leaf("1")]), Obj(map["a" := Obj(map["b" := Leaf("2")])]);
    var layers := [Layer(User, low), Layer(Project, high)];
    assert layers[..1] == [Layer(User, low)];
    assert MergeAll(layers) == Merge(low, high);
    assert Join(["a", "b"][..1]) == "a" by { assert ["a", "b"][..1] == ["a"]; }
    assert Join(["a", "b"]) == "a.b";
    assert ValueAt(high.fields["a"], ["b"]) == Some(Leaf("2"));
    assert ["a", "b"][1..] == ["b"];
    assert LeafAt(high, ["a", "b"]);
    assert [] + ["a", "b"] == ["a", "b"];
    assert Named(high, [], "a.b");
    assert LastNamed(layers, "a.b", 1);
    OriginIsLastNamed(layers, origins, "a.b", 1);
  }
}
