/** packages/config/src/load.ts:29-58: environment overrides laid over a parsed configuration file. */
module ConfigMerge {
  import opened Wrappers

  /** A parsed value. Scalars, null and arrays are leaves: only plain objects are entered. */
  datatype Value =
    | Undefined
    | Leaf(json: string)
    | Object(fields: map<string, Value>)

  // ----- What the two functions compute -----

  /** The keys of a merged object: an undefined value in the patch adds none. */
  function MergedKeys(base: Value, patch: Value): set<string>
    requires base.Object? && patch.Object?
  {
    base.fields.Keys + set k <- patch.fields | patch.fields[k] != Undefined
  }

  function Merge(base: Value, patch: Value): (r: Value)
    requires base.Object? && patch.Object?
    ensures r.Object?
    decreases patch
  {
    Object(map k <- MergedKeys(base, patch) ::
      if k !in patch.fields || patch.fields[k] == Undefined then base.fields[k]
      else if patch.fields[k].Object? && k in base.fields && base.fields[k].Object?
      then Merge(base.fields[k], patch.fields[k])
      else patch.fields[k])
  }

  /** Undefined, or an object with nothing left in it. */
  predicate Empty(v: Value) {
    match v
    case Undefined => true
    case Leaf(_) => false
    case Object(fields) => forall k <- fields :: Empty(fields[k])
  }

  /** The value without its empty parts; an object stays an object. */
  function Compact(v: Value): Value {
    match v
    case Object(fields) => Object(map k <- fields | !Empty(fields[k]) :: Compact(fields[k]))
    case _ => v
  }

  // ----- The loops -----

  /** The keys may come in any order: the result does not depend on it. */
  method DeepMerge(base: Value, patch: Value) returns (out: Value)
    requires base.Object? && patch.Object?
    ensures out == Merge(base, patch)
    decreases patch
  {
    var fields := base.fields;
    var rest := patch.fields.Keys;
    ghost var merged := Merge(base, patch).fields;
    while rest != {}
      invariant rest <= patch.fields.Keys
      invariant fields.Keys == base.fields.Keys + (merged.Keys - rest)
      invariant forall k <- fields :: fields[k] == if k in base.fields && k in rest then base.fields[k] else merged[k]
      decreases rest
    {
      var key :| key in rest;
      rest := rest - {key};
      var value := patch.fields[key];
      if value != Undefined {
        if value.Object? && key in fields && fields[key].Object? {
          value := DeepMerge(fields[key], value);
        }
        fields := fields[key := value];
      }
    }
    assert fields == merged;
    out := Object(fields);
  }

  /** Drops what is undefined, key by key; nothing left gives None. */
  method CompactObject(obj: Value) returns (r: Option<Value>)
    requires obj.Object?
    ensures r == if Empty(obj) then None else Some(Compact(obj))
    decreases obj
  {
    var out: map<string, Value> := map[];
    var rest := obj.fields.Keys;
    ghost var kept := Compact(obj).fields;
    while rest != {}
      invariant rest <= obj.fields.Keys
      invariant out.Keys == kept.Keys - rest
      invariant forall k <- out :: out[k] == kept[k]
      decreases rest
    {
      var key :| key in rest;
      rest := rest - {key};
      var value := obj.fields[key];
      if value.Object? {
        var inner := CompactObject(value);
        if inner.Some? {
          out := out[key := inner.value];
        }
      } else if value != Undefined {
        assert !Empty(value) && Compact(value) == value;
        out := out[key := value];
      }
    }
    assert out == kept;
    assert out == map[] <==> Empty(obj) by {
      assert Empty(obj) <==> kept.Keys == {};
    }
    r := if out == map[] then None else Some(Object(out));
  }

  // ----- Reading a configuration -----

  /** The leaf at a path. */
  function LeafAt(v: Value, path: seq<string>): Option<string>
    decreases path
  {
    if path == [] then (if v.Leaf? then Some(v.json) else None)
    else if v.Object? && path[0] in v.fields then LeafAt(v.fields[path[0]], path[1..])
    else None
  }

  /** The value has a leaf at the path, above it or below it. */
  predicate Touches(v: Value, path: seq<string>)
    decreases path
  {
    if path == [] then !Empty(v)
    else v.Leaf? || (v.Object? && path[0] in v.fields && Touches(v.fields[path[0]], path[1..]))
  }

  /** What layering means, leaf by leaf: the patch where it says something, else the base. */
  function Layered(base: Value, patch: Value, path: seq<string>): Option<string> {
    if Touches(patch, path) then LeafAt(patch, path) else LeafAt(base, path)
  }

  /** No undefined value and no empty object inside. */
  predicate Clean(v: Value) {
    v.Object? ==> forall k <- v.fields :: !Empty(v.fields[k]) && Clean(v.fields[k])
  }

  lemma {:induction false} LeavesTouch(v: Value, path: seq<string>)
    requires LeafAt(v, path).Some?
    ensures Touches(v, path)
    decreases path
  {
    if path != [] {
      LeavesTouch(v.fields[path[0]], path[1..]);
    }
  }

  /** Merging a patch without empty parts layers it over the base, at every path. */
  lemma {:induction false} CleanMergeLayers(base: Value, patch: Value, path: seq<string>)
    requires base.Object? && patch.Object? && Clean(patch) && path != []
    ensures LeafAt(Merge(base, patch), path) == Layered(base, patch, path)
    decreases path
  {
    var k, rest, merged := path[0], path[1..], Merge(base, patch);
    if k !in patch.fields {
      assert LeafAt(merged, path) == LeafAt(base, path);
    } else if rest == [] {
      assert Touches(patch, path);
      assert LeafAt(merged.fields[k], []) == LeafAt(patch.fields[k], []);
    } else if patch.fields[k].Object? && k in base.fields && base.fields[k].Object? {
      CleanMergeLayers(base.fields[k], patch.fields[k], rest);
    } else {
      assert LeafAt(merged, path) == LeafAt(patch.fields[k], rest);
      assert Touches(patch, path) == Touches(patch.fields[k], rest);
      assert patch.fields[k].Object? && k in base.fields ==> LeafAt(base, path) == LeafAt(base.fields[k], rest) == None;
      assert LeafAt(patch, path).None? || Touches(patch, path) by {
        if LeafAt(patch, path).Some? {
          LeavesTouch(patch, path);
        }
      }
    }
  }

  lemma {:induction false} CompactIsClean(v: Value)
    ensures Clean(Compact(v)) && (Empty(Compact(v)) <==> Empty(v))
  {
    if v.Object? {
      forall k <- v.fields
        ensures Clean(Compact(v.fields[k])) && (Empty(Compact(v.fields[k])) <==> Empty(v.fields[k]))
      {
        CompactIsClean(v.fields[k]);
      }
      var c := Compact(v);
      assert forall k <- v.fields :: !Empty(v.fields[k]) ==> k in c.fields && c.fields[k] == Compact(v.fields[k]);
    }
  }

  lemma {:induction false} CleanIsCompact(v: Value)
    requires Clean(v)
    ensures Compact(v) == v
  {
    if v.Object? {
      forall k <- v.fields ensures Compact(v.fields[k]) == v.fields[k] {
        CleanIsCompact(v.fields[k]);
      }
      assert Compact(v).fields == v.fields;
    }
  }

  lemma {:induction false} CompactKeepsLeaves(v: Value, path: seq<string>)
    ensures LeafAt(Compact(v), path) == LeafAt(v, path)
    ensures Touches(Compact(v), path) == Touches(v, path)
    decreases path
  {
    if path == [] {
      CompactIsClean(v);
    } else if v.Object? && path[0] in v.fields {
      CompactKeepsLeaves(v.fields[path[0]], path[1..]);
      if Empty(v.fields[path[0]]) {
        EmptyIsUntouched(v.fields[path[0]], path[1..]);
      }
    }
  }

  lemma {:induction false} EmptyIsUntouched(v: Value, path: seq<string>)
    requires Empty(v)
    ensures !Touches(v, path) && LeafAt(v, path).None?
    decreases path
  {
    if path != [] && v.Object? && path[0] in v.fields {
      EmptyIsUntouched(v.fields[path[0]], path[1..]);
    }
  }

  /** compact is idempotent, leaves no undefined value and no empty object at any depth, and keeps every leaf. */
  lemma CompactLeavesLeaves(v: Value, path: seq<string>)
    ensures Clean(Compact(v)) && Compact(Compact(v)) == Compact(v)
    ensures LeafAt(Compact(v), path) == LeafAt(v, path)
  {
    CompactIsClean(v);
    CleanIsCompact(Compact(v));
    CompactKeepsLeaves(v, path);
  }

  lemma {:induction false} SomeLeaf(v: Value) returns (path: seq<string>)
    requires !Empty(v)
    ensures LeafAt(v, path).Some?
  {
    path := [];
    if v.Object? {
      var k :| k in v.fields && !Empty(v.fields[k]);
      var rest := SomeLeaf(v.fields[k]);
      path := [k] + rest;
    }
  }

  /** compact returns undefined exactly when there is no leaf to keep. */
  lemma EmptyMeansNoLeaf(v: Value)
    ensures Empty(v) <==> forall path :: LeafAt(v, path).None?
  {
    if Empty(v) {
      forall path ensures LeafAt(v, path).None? {
        EmptyIsUntouched(v, path);
      }
    } else {
      var path := SomeLeaf(v);
    }
  }

  /** What the loaders do with the overrides they gather from the environment. */
  function Overridden(file: Value, overrides: Value): Value
    requires file.Object? && overrides.Object?
  {
    Merge(file, if Empty(overrides) then Object(map[]) else Compact(overrides))
  }

  /**
    * The environment wins over the file leaf by leaf: each path reads the override's leaf where
    * there is one, and the file's exactly where the overrides have none at, above or below it.
    */
  lemma OverridesLayer(file: Value, overrides: Value, path: seq<string>)
    requires file.Object? && overrides.Object? && path != []
    ensures LeafAt(Overridden(file, overrides), path) == Layered(file, overrides, path)
    ensures LeafAt(overrides, path).Some? ==> LeafAt(Overridden(file, overrides), path) == LeafAt(overrides, path)
  {
    if Empty(overrides) {
      EmptyIsUntouched(overrides, path);
      CleanMergeLayers(file, Object(map[]), path);
    } else {
      CompactIsClean(overrides);
      CleanMergeLayers(file, Compact(overrides), path);
      CompactKeepsLeaves(overrides, path);
    }
    if LeafAt(overrides, path).Some? {
      LeavesTouch(overrides, path);
    }
  }

  /** What is at a path, leaf or not. */
  function At(v: Value, path: seq<string>): Option<Value>
    decreases path
  {
    if path == [] then Some(v)
    else if v.Object? && path[0] in v.fields then At(v.fields[path[0]], path[1..])
    else None
  }

  predicate HasEmptyObjectAt(v: Value, path: seq<string>) {
    At(v, path).Some? && At(v, path).value.Object? && Empty(At(v, path).value)
  }

  /**
    * Compacting first matters: where the base has a leaf, a bare merge layers exactly when the
    * patch has no empty object at that very path.
    */
  lemma {:induction false} BareMergeLayersAt(base: Value, patch: Value, path: seq<string>)
    requires base.Object? && patch.Object? && path != [] && LeafAt(base, path).Some?
    ensures LeafAt(Merge(base, patch), path) == Layered(base, patch, path) <==> !HasEmptyObjectAt(patch, path)
    decreases path
  {
    var k, rest := path[0], path[1..];
    if k in patch.fields && patch.fields[k] != Undefined {
      if rest == [] {
        assert LeafAt(Merge(base, patch), path) == LeafAt(Merge(base, patch).fields[k], []);
        assert Touches(patch, path) == Touches(patch.fields[k], []);
        assert At(patch, path) == At(patch.fields[k], []);
      } else if patch.fields[k].Object? {
        BareMergeLayersAt(base.fields[k], patch.fields[k], rest);
      } else {
        assert LeafAt(Merge(base, patch), path) == LeafAt(patch.fields[k], rest) == None;
        assert Touches(patch, path) == Touches(patch.fields[k], rest) == true;
        assert At(patch, path) == At(patch.fields[k], rest) == None;
      }
    } else {
      assert LeafAt(Merge(base, patch), path) == LeafAt(base, path);
      assert k in patch.fields ==> !Touches(patch.fields[k], rest) && At(patch, path) == At(patch.fields[k], rest);
    }
  }
}
