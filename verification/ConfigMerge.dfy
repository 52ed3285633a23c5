/** Layered configuration merging, `_merge_configs` (wings_control/core/config_loader.py). */
module ConfigMerge {
  import opened Common

  /** A configuration value: a nested dictionary, or anything else. */
  datatype Json<V> = Leaf(value: V) | Dict(entries: map<string, Json<V>>)

  /** The later dictionary wins, except where both hold dictionaries: those are merged. */
  function Merge<V>(a: Json<V>, b: Json<V>): (m: Json<V>)
    requires a.Dict? && b.Dict?
    ensures m.Dict?
    decreases b
  {
    Dict(map k | k in a.entries.Keys + b.entries.Keys ::
      if k !in b.entries then a.entries[k]
      else if k in a.entries && a.entries[k].Dict? && b.entries[k].Dict? then Merge(a.entries[k], b.entries[k])
      else b.entries[k])
  }

  /** All layers, lowest priority first; a layer that is not a dictionary is skipped. */
  function MergeAll<V>(layers: seq<Json<V>>): (m: Json<V>)
    ensures m.Dict?
  {
    if layers == [] then Dict(map[])
    else
      var last := layers[|layers| - 1];
      var m := MergeAll(layers[..|layers| - 1]);
      if last.Dict? then Merge(m, last) else m
  }

  // ---------------------------------------------------------------------------
  // Looking values up
  // ---------------------------------------------------------------------------

  function At<V>(j: Json<V>, path: seq<string>): Option<Json<V>> {
    if path == [] then Some(j)
    else if j.Dict? && path[0] in j.entries then At(j.entries[path[0]], path[1..])
    else None
  }

  ghost predicate LeafAt<V>(j: Json<V>, path: seq<string>, v: V) {
    At(j, path) == Some(Leaf(v))
  }

  ghost predicate DictAt<V>(j: Json<V>, path: seq<string>) {
    At(j, path).Some? && At(j, path).value.Dict?
  }

  /** Some value that is not a dictionary stands on the way to `path` or at its end. */
  predicate Blocks<V>(j: Json<V>, path: seq<string>)
    decreases |path|
  {
    j.Leaf? || (path != [] && path[0] in j.entries && Blocks(j.entries[path[0]], path[1..]))
  }

  /** Path by path, which values a merge contains: those of the later layer, and those of the earlier
      one at paths the later layer neither sets nor cuts off. */
  lemma {:induction false} MergedLeaf<V>(a: Json<V>, b: Json<V>, path: seq<string>, v: V)
    requires a.Dict? && b.Dict?
    ensures LeafAt(Merge(a, b), path, v) <==>
              LeafAt(b, path, v) || (LeafAt(a, path, v) && !Blocks(b, path) && At(b, path) == None)
    decreases |path|
  {
    if path != [] {
      var k, rest := path[0], path[1..];
      assert At(Merge(a, b), path) == if k in Merge(a, b).entries then At(Merge(a, b).entries[k], rest) else None;
      if k in a.entries && k in b.entries && a.entries[k].Dict? && b.entries[k].Dict? {
        MergedLeaf(a.entries[k], b.entries[k], rest, v);
      } else if k in a.entries && k in b.entries && b.entries[k].Dict? {
        LeafHasNoPaths(a.entries[k], rest);
      }
    }
  }

  /** And where it holds dictionaries. */
  lemma {:induction false} MergedDict<V>(a: Json<V>, b: Json<V>, path: seq<string>)
    requires a.Dict? && b.Dict?
    ensures DictAt(Merge(a, b), path) <==> DictAt(b, path) || (DictAt(a, path) && !Blocks(b, path))
    decreases |path|
  {
    if path != [] {
      var k, rest := path[0], path[1..];
      assert At(Merge(a, b), path) == if k in Merge(a, b).entries then At(Merge(a, b).entries[k], rest) else None;
      if k in a.entries && k in b.entries && a.entries[k].Dict? && b.entries[k].Dict? {
        MergedDict(a.entries[k], b.entries[k], rest);
      } else if k in a.entries && k in b.entries && b.entries[k].Dict? {
        LeafHasNoPaths(a.entries[k], rest);
      }
    }
  }

  lemma LeafHasNoPaths<V>(j: Json<V>, path: seq<string>)
    ensures j.Leaf? && path != [] ==> At(j, path) == None
  {}

  lemma AtOne<V>(j: Json<V>, k: string)
    requires j.Dict?
    ensures At(j, [k]) == if k in j.entries then Some(j.entries[k]) else None
  {
    assert [k][1..] == [];
  }

  /** The two lookups determine a configuration, so the lemma above says everything about a merge. */
  lemma {:induction false} PathsDetermine<V(!new)>(a: Json<V>, b: Json<V>)
    requires forall path: seq<string>, v: V :: LeafAt(a, path, v) <==> LeafAt(b, path, v)
    requires forall path: seq<string> :: DictAt(a, path) <==> DictAt(b, path)
    ensures a == b
    decreases a
  {
    assert DictAt(a, []) <==> DictAt(b, []);
    if a.Leaf? {
      assert LeafAt(a, [], a.value) <==> LeafAt(b, [], a.value);
    } else {
      forall k ensures k in a.entries <==> k in b.entries { SameKey(a, b, k); }
      forall k | k in a.entries ensures a.entries[k] == b.entries[k] {
        forall path: seq<string>, v: V ensures LeafAt(a.entries[k], path, v) <==> LeafAt(b.entries[k], path, v) {
          assert ([k] + path)[1..] == path;
          assert LeafAt(a, [k] + path, v) <==> LeafAt(b, [k] + path, v);
        }
        forall path: seq<string> ensures DictAt(a.entries[k], path) <==> DictAt(b.entries[k], path) {
          assert ([k] + path)[1..] == path;
          assert DictAt(a, [k] + path) <==> DictAt(b, [k] + path);
        }
        PathsDetermine(a.entries[k], b.entries[k]);
      }
    }
  }

  lemma SameKey<V(!new)>(a: Json<V>, b: Json<V>, k: string)
    requires a.Dict? && b.Dict?
    requires forall path: seq<string>, v: V :: LeafAt(a, path, v) <==> LeafAt(b, path, v)
    requires forall path: seq<string> :: DictAt(a, path) <==> DictAt(b, path)
    ensures k in a.entries <==> k in b.entries
  {
    AtOne(a, k);
    AtOne(b, k);
    assert DictAt(a, [k]) <==> DictAt(b, [k]);
    if k in a.entries && a.entries[k].Leaf? {
      assert LeafAt(a, [k], a.entries[k].value) <==> LeafAt(b, [k], a.entries[k].value);
    }
    if k in b.entries && b.entries[k].Leaf? {
      assert LeafAt(a, [k], b.entries[k].value) <==> LeafAt(b, [k], b.entries[k].value);
    }
  }

  // ---------------------------------------------------------------------------
  // Laws
  // ---------------------------------------------------------------------------

  lemma {:induction false} MergeSelf<V>(a: Json<V>)
    requires a.Dict?
    ensures Merge(a, a) == a
    decreases a
  {
    forall k | k in a.entries && a.entries[k].Dict? ensures Merge(a.entries[k], a.entries[k]) == a.entries[k] {
      MergeSelf(a.entries[k]);
    }
    assert Merge(a, a).entries == a.entries;
  }

  lemma MergeEmpty<V>(a: Json<V>)
    requires a.Dict?
    ensures Merge(Dict(map[]), a) == a == Merge(a, Dict(map[]))
  {
    assert Merge(Dict(map[]), a).entries == a.entries;
    assert Merge(a, Dict(map[])).entries == a.entries;
  }

  /** Everything `a` says, `c` says itself: every key of `a` is in `c`, and so on inside. */
  predicate Covers<V>(c: Json<V>, a: Json<V>)
    requires a.Dict? && c.Dict?
    decreases c
  {
    forall k | k in a.entries ::
      k in c.entries && (a.entries[k].Dict? && c.entries[k].Dict? ==> Covers(c.entries[k], a.entries[k]))
  }

  /** An earlier layer has no effect exactly if the later one covers it. */
  lemma {:induction false} NoEffectIff<V>(a: Json<V>, c: Json<V>)
    requires a.Dict? && c.Dict?
    ensures Merge(a, c) == c <==> Covers(c, a)
    decreases c
  {
    var m := Merge(a, c).entries;
    forall k | k in a.entries && k in c.entries && a.entries[k].Dict? && c.entries[k].Dict?
      ensures m[k] == c.entries[k] <==> Covers(c.entries[k], a.entries[k])
    {
      NoEffectIff(a.entries[k], c.entries[k]);
    }
    if Covers(c, a) {
      assert m == c.entries;
    }
  }

  /** Where the outer layers hold dictionaries and the middle one something else, the last layer
      covers the first. */
  predicate Associates<V>(a: Json<V>, b: Json<V>, c: Json<V>)
    requires a.Dict? && b.Dict? && c.Dict?
    decreases c
  {
    forall k | k in a.entries && k in b.entries && k in c.entries && a.entries[k].Dict? && c.entries[k].Dict? ::
      if b.entries[k].Leaf? then Covers(c.entries[k], a.entries[k])
      else Associates(a.entries[k], b.entries[k], c.entries[k])
  }

  /** Grouping of layers does not matter exactly when no middle layer hides one dictionary from
      another: merging is not associative when shapes differ. */
  lemma {:induction false} AssociativeIff<V>(a: Json<V>, b: Json<V>, c: Json<V>)
    requires a.Dict? && b.Dict? && c.Dict?
    ensures Merge(Merge(a, b), c) == Merge(a, Merge(b, c)) <==> Associates(a, b, c)
    decreases c
  {
    var l, r := Merge(Merge(a, b), c).entries, Merge(a, Merge(b, c)).entries;
    assert l.Keys == r.Keys;
    forall k | k in l
      ensures l[k] == r[k] <==>
        (k in a.entries && k in b.entries && k in c.entries && a.entries[k].Dict? && c.entries[k].Dict? ==>
           if b.entries[k].Leaf? then Covers(c.entries[k], a.entries[k])
           else Associates(a.entries[k], b.entries[k], c.entries[k]))
    {
      if k in a.entries && k in b.entries && k in c.entries
         && a.entries[k].Dict? && b.entries[k].Dict? && c.entries[k].Dict? {
        AssociativeIff(a.entries[k], b.entries[k], c.entries[k]);
      } else if k in a.entries && k in c.entries && a.entries[k].Dict? && c.entries[k].Dict? {
        NoEffectIff(a.entries[k], c.entries[k]);
      }
    }
    assert l == r <==> forall k | k in l :: l[k] == r[k];
  }

  /** Three layers that do not associate: the middle one replaces a dictionary by a plain value. */
  lemma NotAssociative<V>(v: V)
    ensures var a, b, c := Dict(map["x" := Dict(map["y" := Leaf(v)])]),
                          Dict(map["x" := Leaf(v)]), Dict(map["x" := Dict(map[])]);
            Merge(Merge(a, b), c) != Merge(a, Merge(b, c))
  {
    var inner := Dict(map["y" := Leaf(v)]);
    var a, b, c := Dict(map["x" := inner]), Dict(map["x" := Leaf(v)]), Dict(map["x" := Dict(map[])]);
    assert "y" in inner.entries && !Covers(c.entries["x"], inner);
    assert "x" in a.entries && !Associates(a, b, c);
    AssociativeIff(a, b, c);
  }

  /** A layer that neither sets `path` nor stands in its way. */
  predicate LeavesAlone<V>(j: Json<V>, path: seq<string>) {
    j.Dict? ==> !Blocks(j, path) && At(j, path) == None
  }

  /** Over all layers: a value set by layer i is found in the result, unchanged, when no later layer
      sets its path, holds a dictionary there, or cuts it off. */
  lemma {:induction false} LastSetterWins<V>(layers: seq<Json<V>>, i: nat, path: seq<string>, v: V)
    requires i < |layers| && layers[i].Dict? && LeafAt(layers[i], path, v)
    requires forall j :: i < j < |layers| ==> LeavesAlone(layers[j], path)
    ensures LeafAt(MergeAll(layers), path, v)
    decreases |layers|
  {
    var n := |layers| - 1;
    var before, last := MergeAll(layers[..n]), layers[n];
    if last.Dict? {
      MergedLeaf(before, last, path, v);
    }
    if i < n {
      LastSetterWins(layers[..n], i, path, v);
    }
  }

  /** Layer `i` sets `path` to `v` and no later layer touches it. */
  ghost predicate SetsLast<V>(layers: seq<Json<V>>, i: nat, path: seq<string>, v: V)
    requires i < |layers|
  {
    layers[i].Dict? && LeafAt(layers[i], path, v) && forall j :: i < j < |layers| ==> LeavesAlone(layers[j], path)
  }

  /** Nothing is invented: every value of the result comes from such a layer. */
  lemma {:induction false} ComesFromALayer<V>(layers: seq<Json<V>>, path: seq<string>, v: V) returns (i: nat)
    requires LeafAt(MergeAll(layers), path, v)
    ensures i < |layers| && SetsLast(layers, i, path, v)
    decreases |layers|
  {
    if layers == [] {
      assert false;
    } else {
      var n := |layers| - 1;
      var before, last := MergeAll(layers[..n]), layers[n];
      if last.Dict? {
        MergedLeaf(before, last, path, v);
      }
      if last.Dict? && LeafAt(last, path, v) {
        i := n;
      } else {
        i := ComesFromALayer(layers[..n], path, v);
        assert layers[i] == layers[..n][i];
        forall j | i < j < |layers| ensures LeavesAlone(layers[j], path) {
          if j < n { assert layers[j] == layers[..n][j]; }
        }
      }
    }
  }

  /** Over any number of layers, path by path: exactly which values the result contains. */
  lemma MergedFromIff<V>(layers: seq<Json<V>>, path: seq<string>, v: V)
    ensures LeafAt(MergeAll(layers), path, v) <==> exists i: nat :: i < |layers| && SetsLast(layers, i, path, v)
  {
    if LeafAt(MergeAll(layers), path, v) {
      var i := ComesFromALayer(layers, path, v);
    }
    if i: nat :| i < |layers| && SetsLast(layers, i, path, v) {
      LastSetterWins(layers, i, path, v);
    }
  }

  /** Layer `i` holds a dictionary at `path` and no later layer puts anything else in its way. */
  ghost predicate KeepsDict<V>(layers: seq<Json<V>>, i: nat, path: seq<string>)
    requires i < |layers|
  {
    && layers[i].Dict? && DictAt(layers[i], path)
    && forall j :: i < j < |layers| && layers[j].Dict? ==> !Blocks(layers[j], path)
  }

  lemma {:induction false} DictFromALayer<V>(layers: seq<Json<V>>, path: seq<string>) returns (i: nat)
    requires path != [] && DictAt(MergeAll(layers), path)
    ensures i < |layers| && KeepsDict(layers, i, path)
    decreases |layers|
  {
    var n := |layers| - 1;
    var before, last := MergeAll(layers[..n]), layers[n];
    if last.Dict? {
      MergedDict(before, last, path);
    }
    if last.Dict? && DictAt(last, path) {
      i := n;
    } else {
      i := DictFromALayer(layers[..n], path);
      assert layers[i] == layers[..n][i];
      forall j | i < j < |layers| && layers[j].Dict? ensures !Blocks(layers[j], path) {
        if j < n { assert layers[j] == layers[..n][j]; }
      }
    }
  }

  lemma {:induction false} DictSurvives<V>(layers: seq<Json<V>>, i: nat, path: seq<string>)
    requires i < |layers| && KeepsDict(layers, i, path)
    ensures DictAt(MergeAll(layers), path)
    decreases |layers|
  {
    var n := |layers| - 1;
    if layers[n].Dict? {
      MergedDict(MergeAll(layers[..n]), layers[n], path);
    }
    if i < n {
      DictSurvives(layers[..n], i, path);
    }
  }

  /** And exactly which dictionaries: with PathsDetermine, the whole result. */
  lemma DictsFromIff<V>(layers: seq<Json<V>>, path: seq<string>)
    ensures DictAt(MergeAll(layers), path) <==>
              path == [] || exists i: nat :: i < |layers| && KeepsDict(layers, i, path)
  {
    if path != [] && DictAt(MergeAll(layers), path) {
      var i := DictFromALayer(layers, path);
    }
    if i: nat :| i < |layers| && KeepsDict(layers, i, path) {
      DictSurvives(layers, i, path);
    }
  }

  // ---------------------------------------------------------------------------
  // How tall a configuration is
  // ---------------------------------------------------------------------------

  ghost function Height<V>(j: Json<V>): nat {
    match j
    case Leaf(_) => 0
    case Dict(entries) => 1 + Largest(set k | k in entries :: Height(entries[k]))
  }

  lemma HeightOfEntries<V>(j: Json<V>)
    requires j.Dict?
    ensures Height(j) >= 1
    ensures forall k :: k in j.entries ==> Height(j.entries[k]) < Height(j)
    ensures Height(j) > 1 ==> exists k :: k in j.entries && Height(j.entries[k]) == Height(j) - 1
  {
    var heights := set k | k in j.entries :: Height(j.entries[k]);
    assert Height(j) == 1 + Largest(heights);
    forall k | k in j.entries ensures Height(j.entries[k]) < Height(j) { assert Height(j.entries[k]) in heights; }
  }

  lemma {:induction false} MergeIsNoTaller<V>(a: Json<V>, b: Json<V>)
    requires a.Dict? && b.Dict?
    ensures Height(Merge(a, b)) <= Height(a) || Height(Merge(a, b)) <= Height(b)
    decreases b
  {
    var m := Merge(a, b).entries;
    HeightOfEntries(a);
    HeightOfEntries(b);
    HeightOfEntries(Merge(a, b));
    forall k | k in m ensures Height(m[k]) < Height(a) || Height(m[k]) < Height(b) {
      if k in a.entries && k in b.entries && a.entries[k].Dict? && b.entries[k].Dict? {
        MergeIsNoTaller(a.entries[k], b.entries[k]);
      }
    }
  }

  ghost function Tallest<V>(layers: seq<Json<V>>): (h: nat)
    ensures forall i :: 0 <= i < |layers| ==> Height(layers[i]) <= h
  {
    if layers == [] then 1
    else
      var h, l := Tallest(layers[..|layers| - 1]), Height(layers[|layers| - 1]);
      if h > l then h else l
  }

  lemma {:induction false} MergeAllIsNoTaller<V>(layers: seq<Json<V>>)
    ensures Height(MergeAll(layers)) <= Tallest(layers)
  {
    if layers != [] {
      var n := |layers| - 1;
      MergeAllIsNoTaller(layers[..n]);
      if layers[n].Dict? {
        MergeIsNoTaller(MergeAll(layers[..n]), layers[n]);
      }
    }
  }

  lemma {:induction false} TallestGrows<V>(layers: seq<Json<V>>, n: nat)
    requires n <= |layers|
    ensures Tallest(layers[..n]) <= Tallest(layers)
  {
    if n < |layers| {
      var m := |layers| - 1;
      assert layers[..m][..n] == layers[..n];
      TallestGrows(layers[..m], n);
    } else {
      assert layers[..n] == layers;
    }
  }

  // ---------------------------------------------------------------------------
  // Dictionaries as objects
  // ---------------------------------------------------------------------------

  /** What a dictionary object stores under a key: a plain value or another dictionary object. */
  datatype Value<V> = Plain(value: V) | Sub(dict: Dictionary<V>)

  class Dictionary<V> {
    var entries: map<string, Value<V>>

    constructor ()
      ensures entries == map[]
    {
      entries := map[];
    }
  }

  /** `x` holds the configuration `j`; the dictionary objects it is made of, which may be shared, are
      among `region`. */
  ghost predicate Holds<V>(x: Value<V>, j: Json<V>, region: set<Dictionary<V>>)
    reads region
    decreases j
  {
    match x
    case Plain(v) => j == Leaf(v)
    case Sub(d) =>
      && d in region && j.Dict? && d.entries.Keys == j.entries.Keys
      && forall k | k in j.entries :: Holds(d.entries[k], j.entries[k], region)
  }

  ghost predicate AllHold<V>(xs: seq<Value<V>>, js: seq<Json<V>>, region: set<Dictionary<V>>)
    reads region
  {
    |xs| == |js| && forall i :: 0 <= i < |xs| ==> Holds(xs[i], js[i], region)
  }

  lemma {:induction false} HoldsInMore<V>(x: Value<V>, j: Json<V>, region: set<Dictionary<V>>, more: set<Dictionary<V>>)
    requires Holds(x, j, region) && region <= more
    ensures Holds(x, j, more)
    decreases j
  {
    if x.Sub? {
      forall k | k in j.entries ensures Holds(x.dict.entries[k], j.entries[k], more) {
        HoldsInMore(x.dict.entries[k], j.entries[k], region, more);
      }
    }
  }

  /** The entries of `d` hold those of `m`; `d` itself may lie outside `region`. */
  ghost predicate EntriesHold<V>(d: Dictionary<V>, m: map<string, Json<V>>, region: set<Dictionary<V>>)
    reads d, region
  {
    d.entries.Keys == m.Keys && forall k | k in m :: Holds(d.entries[k], m[k], region)
  }

  lemma EntriesHoldInMore<V>(d: Dictionary<V>, m: map<string, Json<V>>,
                             region: set<Dictionary<V>>, more: set<Dictionary<V>>)
    requires EntriesHold(d, m, region) && region <= more
    ensures EntriesHold(d, m, more)
  {
    forall k | k in m ensures Holds(d.entries[k], m[k], more) { HoldsInMore(d.entries[k], m[k], region, more); }
  }

  /** What one key of a later layer comes to. */
  function Entry<V>(a: map<string, Json<V>>, b: map<string, Json<V>>, k: string): Json<V>
    requires k in b
  {
    if k in a && a[k].Dict? && b[k].Dict? then Merge(a[k], b[k]) else b[k]
  }

  /** `r` is `a` with the keys of `b` other than those in `todo` merged in. */
  ghost predicate PartlyMerged<V>(a: map<string, Json<V>>, b: map<string, Json<V>>,
                                  r: map<string, Json<V>>, todo: set<string>) {
    && (forall k :: k in todo || k !in b ==> (k in r <==> k in a) && (k in r ==> r[k] == a[k]))
    && (forall k :: k in b && k !in todo ==> k in r && r[k] == Entry(a, b, k))
  }

  lemma AllMerged<V>(a: map<string, Json<V>>, b: map<string, Json<V>>, r: map<string, Json<V>>)
    requires PartlyMerged(a, b, r, {})
    ensures Dict(r) == Merge(Dict(a), Dict(b))
  {
    assert r == Merge(Dict(a), Dict(b)).entries;
  }

  lemma TwoLayers<V>(a: Json<V>, b: Json<V>)
    requires a.Dict? && b.Dict?
    ensures MergeAll([a, b]) == Merge(a, b)
    ensures Tallest([a, b]) == if Height(a) > Height(b) then Height(a) else Height(b)
  {
    assert [a, b][..1] == [a] && [a][..0] == [];
    MergeEmpty(a);
    HeightOfEntries(a);
    assert MergeAll([a]) == Merge(MergeAll([]), a) == a;
    assert Tallest([a]) == Height(a);
  }

  ghost function TallerOf<V>(m: map<string, Json<V>>, j: Json<V>): nat {
    if Height(Dict(m)) > Height(j) then Height(Dict(m)) else Height(j)
  }

  lemma OneMoreKey<V>(a: map<string, Json<V>>, b: map<string, Json<V>>,
                      r: map<string, Json<V>>, todo: set<string>, key: string)
    requires PartlyMerged(a, b, r, todo) && key in todo && key in b
    ensures PartlyMerged(a, b, r[key := Entry(a, b, key)], todo - {key})
  {}

  /** The value one key gets: the layer's, or the merge of two dictionaries in a new one. */
  method MergedValue<V>(merged: Dictionary<V>, key: string, value: Value<V>,
                        ghost m: map<string, Json<V>>, ghost j: Json<V>,
                        ghost region: set<Dictionary<V>>, ghost made: set<Dictionary<V>>)
    returns (v: Value<V>, ghost more: set<Dictionary<V>>)
    requires j.Dict? && key in j.entries && Holds(value, j.entries[key], region)
    requires key in merged.entries <==> key in m
    requires key in m ==> Holds(merged.entries[key], m[key], region + made)
    ensures fresh(more) && Holds(v, Entry(m, j.entries, key), region + (made + more))
    decreases TallerOf(m, j), 0
  {
    more := {};
    HoldsInMore(value, j.entries[key], region, region + made);
    assert region + (made + {}) == region + made;
    v := value;
    if value.Sub? && key in merged.entries && merged.entries[key].Sub? {
      NestedIsLower(m, j, key);
      var sub;
      sub, more := MergeConfigs([merged.entries[key], value], [m[key], j.entries[key]], region + made);
      TwoLayers(m[key], j.entries[key]);
      assert region + made + more == region + (made + more);
      v := Sub(sub);
    }
  }

  method MergeKey<V>(merged: Dictionary<V>, key: string, value: Value<V>,
                     ghost m: map<string, Json<V>>, ghost j: Json<V>, ghost r: map<string, Json<V>>,
                     ghost region: set<Dictionary<V>>, ghost made: set<Dictionary<V>>)
    returns (ghost more: set<Dictionary<V>>)
    requires merged !in region + made && EntriesHold(merged, r, region + made)
    requires j.Dict? && key in j.entries && Holds(value, j.entries[key], region)
    requires (key in r <==> key in m) && (key in m ==> r[key] == m[key])
    modifies merged
    ensures fresh(more)
    ensures EntriesHold(merged, r[key := Entry(m, j.entries, key)], region + (made + more))
    decreases TallerOf(m, j), 1
  {
    var v;
    v, more := MergedValue(merged, key, value, m, j, region, made);
    EntriesHoldInMore(merged, r, region + made, region + (made + more));
    merged.entries := merged.entries[key := v];
  }

  /** The keys of `layer` other than those in `todo` have been merged into `merged`, which held `m` and
      now holds `r`; the dictionaries made for that are `made`. */
  ghost predicate Merging<V>(merged: Dictionary<V>, layer: Dictionary<V>, m: map<string, Json<V>>, j: Json<V>,
                             r: map<string, Json<V>>, todo: set<string>,
                             region: set<Dictionary<V>>, made: set<Dictionary<V>>)
    requires j.Dict?
    reads merged, layer, region, made
  {
    && merged !in region + made && layer in region
    && EntriesHold(layer, j.entries, region) && EntriesHold(merged, r, region + made)
    && todo <= j.entries.Keys && PartlyMerged(m, j.entries, r, todo)
  }

  lemma NothingMerged<V>(merged: Dictionary<V>, layer: Dictionary<V>, m: map<string, Json<V>>, j: Json<V>,
                         region: set<Dictionary<V>>)
    requires merged !in region && EntriesHold(merged, m, region) && Holds(Sub(layer), j, region)
    ensures Merging(merged, layer, m, j, m, layer.entries.Keys, region, {})
  {
    assert region + {} == region;
  }

  lemma EverythingMerged<V>(merged: Dictionary<V>, layer: Dictionary<V>, m: map<string, Json<V>>, j: Json<V>,
                            r: map<string, Json<V>>, region: set<Dictionary<V>>, made: set<Dictionary<V>>)
    requires j.Dict? && Merging(merged, layer, m, j, r, {}, region, made)
    ensures EntriesHold(merged, Merge(Dict(m), j).entries, region + made)
  {
    AllMerged(m, j.entries, r);
  }

  /** One turn of the loop over the keys of a layer. */
  method MergeNext<V>(merged: Dictionary<V>, layer: Dictionary<V>, key: string, ghost m: map<string, Json<V>>,
                      ghost j: Json<V>, ghost r: map<string, Json<V>>, ghost todo: set<string>,
                      ghost region: set<Dictionary<V>>, ghost made: set<Dictionary<V>>)
    returns (ghost r': map<string, Json<V>>, ghost made': set<Dictionary<V>>)
    requires j.Dict? && key in todo && Merging(merged, layer, m, j, r, todo, region, made)
    modifies merged
    ensures made <= made' && fresh(made' - made)
    ensures Merging(merged, layer, m, j, r', todo - {key}, region, made')
    decreases TallerOf(m, j), 2
  {
    ghost var more := MergeKey(merged, key, layer.entries[key], m, j, r, region, made);
    OneMoreKey(m, j.entries, r, todo, key);
    r' := r[key := Entry(m, j.entries, key)];
    made' := made + more;
  }

  /** One layer into the dictionary under construction, key by key.  `region` holds every dictionary
      there was before, `made` the ones this call makes; only `merged` itself is written to. */
  method MergeInto<V>(merged: Dictionary<V>, layer: Dictionary<V>,
                      ghost m: map<string, Json<V>>, ghost j: Json<V>, ghost region: set<Dictionary<V>>)
    returns (ghost made: set<Dictionary<V>>)
    requires merged !in region && EntriesHold(merged, m, region) && Holds(Sub(layer), j, region)
    modifies merged
    ensures fresh(made)
    ensures EntriesHold(merged, Merge(Dict(m), j).entries, region + made)
    decreases TallerOf(m, j), 3
  {
    made := {};
    ghost var r := m;
    var todo := layer.entries.Keys;
    NothingMerged(merged, layer, m, j, region);
    while todo != {}
      invariant fresh(made) && Merging(merged, layer, m, j, r, todo, region, made)
      decreases |todo|
    {
      var key :| key in todo;
      r, made := MergeNext(merged, layer, key, m, j, r, todo, region, made);
      todo := todo - {key};
    }
    EverythingMerged(merged, layer, m, j, r, region, made);
  }

  /** The same with the dictionaries made so far kept apart. */
  method MergeLayer<V>(merged: Dictionary<V>, layer: Dictionary<V>, ghost m: map<string, Json<V>>, ghost j: Json<V>,
                       ghost region: set<Dictionary<V>>, ghost made: set<Dictionary<V>>)
    returns (ghost more: set<Dictionary<V>>)
    requires merged !in region + made && EntriesHold(merged, m, region + made) && Holds(Sub(layer), j, region)
    modifies merged
    ensures fresh(more)
    ensures EntriesHold(merged, Merge(Dict(m), j).entries, region + (made + more))
    decreases TallerOf(m, j), 4
  {
    HoldsInMore(Sub(layer), j, region, region + made);
    more := MergeInto(merged, layer, m, j, region + made);
    assert region + made + more == region + (made + more);
  }

  lemma NestedIsLower<V>(m: map<string, Json<V>>, j: Json<V>, k: string)
    requires j.Dict? && k in m && k in j.entries && m[k].Dict? && j.entries[k].Dict?
    ensures Tallest([m[k], j.entries[k]]) < TallerOf(m, j)
  {
    HeightOfEntries(Dict(m));
    HeightOfEntries(j);
    TwoLayers(m[k], j.entries[k]);
  }

  /** The call with any number of layers.  Its result is a new dictionary that holds their merge; it
      may share dictionaries with the layers, and still no dictionary that existed before is changed:
      every layer goes on holding what it held. */
  method MergeConfigs<V>(configs: seq<Value<V>>, ghost js: seq<Json<V>>, ghost region: set<Dictionary<V>>)
    returns (merged: Dictionary<V>, ghost made: set<Dictionary<V>>)
    requires AllHold(configs, js, region)
    ensures fresh(made) && merged in made
    ensures Holds(Sub(merged), MergeAll(js), region + made)
    ensures forall d :: d in region ==> d.entries == old(d.entries)
    ensures AllHold(configs, js, region)
    decreases Tallest(js), 5
  {
    merged := new Dictionary();
    made := {};
    for n := 0 to |configs|
      invariant fresh(made) && fresh(merged) && merged !in region + made
      invariant AllHold(configs, js, region)
      invariant EntriesHold(merged, MergeAll(js[..n]).entries, region + made)
    {
      assert js[..n + 1][..n] == js[..n];
      if configs[n].Sub? {
        LayersAreLower(js, n);
        ghost var more := MergeLayer(merged, configs[n].dict, MergeAll(js[..n]).entries, js[n], region, made);
        made := made + more;
      }
    }
    assert js[..|configs|] == js;
    ghost var all := made + {merged};
    EntriesHoldInMore(merged, MergeAll(js).entries, region + made, region + all);
    made := all;
  }

  lemma LayersAreLower<V>(js: seq<Json<V>>, n: nat)
    requires n < |js|
    ensures TallerOf(MergeAll(js[..n]).entries, js[n]) <= Tallest(js)
  {
    MergeAllIsNoTaller(js[..n]);
    TallestGrows(js, n);
  }
}
