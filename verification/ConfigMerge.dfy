/** Merging an override into the configuration, key by key and level by level. */
module ConfigMerge {

  datatype Json = Undefined | Null | Leaf(text: string) | Array(items: seq<Json>) | Object(fields: map<string, Json>)

  /** A property that is not there reads as undefined. */
  function Field(j: Json, key: string): Json {
    if j.Object? && key in j.fields then j.fields[key] else Undefined
  }

  function DeepMerge(target: Json, source: Json): (r: Json)
    requires target.Object? && source.Object?
    ensures r.Object?
    decreases source, 1
  {
    Object(map key | key in target.fields.Keys + source.fields.Keys
                     && (key in target.fields || !source.fields[key].Undefined?) ::
      MergedField(target, source, key))
  }

  function MergedField(target: Json, source: Json, key: string): Json
    requires target.Object? && source.Object?
    decreases source, 0
  {
    if Field(source, key).Object? && Field(target, key).Object? then DeepMerge(target.fields[key], source.fields[key])
    else if !Field(source, key).Undefined? then source.fields[key]
    else Field(target, key)
  }

  /** Copies the target and fills in the keys of the source. */
  method DeepMergeInto(target: Json, source: Json) returns (result: Json)
    requires target.Object? && source.Object?
    ensures result == DeepMerge(target, source)
    decreases source, 1
  {
    var fields := target.fields;
    var keys := source.fields.Keys;
    ghost var merged := DeepMerge(target, source).fields;
    while keys != {}
      invariant keys <= source.fields.Keys
      invariant forall key :: key in source.fields && key !in keys ==> SameField(fields, merged, key)
      invariant forall key :: key !in source.fields || key in keys ==> SameField(fields, target.fields, key)
      decreases |keys|
    {
      var key :| key in keys;
      assert SameField(fields, target.fields, key);
      var next := FillKey(fields, target, source, key);
      forall k
        ensures k in source.fields && k !in keys - {key} ==> SameField(next, merged, k)
        ensures k !in source.fields || k in keys - {key} ==> SameField(next, target.fields, k)
      {
        assert k != key ==> SameField(next, fields, k);
        assert k in source.fields && k !in keys ==> SameField(fields, merged, k);
        assert k !in source.fields || k in keys ==> SameField(fields, target.fields, k);
      }
      fields := next;
      keys := keys - {key};
    }
    forall k
      ensures SameField(fields, merged, k)
    {
      assert k !in source.fields ==>
          SameField(fields, target.fields, k) && MergedField(target, source, k) == Field(target, k);
      assert k in source.fields ==> SameField(fields, merged, k);
    }
    SameFieldsSameMap(fields, merged);
    result := Object(fields);
  }

  method FillKey(fields: map<string, Json>, target: Json, source: Json, key: string)
    returns (fields': map<string, Json>)
    requires target.Object? && source.Object? && key in source.fields
    requires SameField(fields, target.fields, key)
    ensures SameField(fields', DeepMerge(target, source).fields, key)
    ensures forall k :: k != key ==> SameField(fields', fields, k)
    decreases source, 0
  {
    fields' := fields;
    var sourceValue, targetValue := source.fields[key], Field(target, key);
    if sourceValue.Object? && targetValue.Object? {
      var inner := DeepMergeInto(targetValue, sourceValue);
      fields' := fields[key := inner];
    } else if !sourceValue.Undefined? {
      fields' := fields[key := sourceValue];
    }
  }

  predicate SameField(a: map<string, Json>, b: map<string, Json>, key: string) {
    (key in a <==> key in b) && (key in a ==> a[key] == b[key])
  }

  lemma SameFieldsSameMap(a: map<string, Json>, b: map<string, Json>)
    requires forall key :: SameField(a, b, key)
    ensures a == b
  {
    forall key
      ensures key in a <==> key in b
      ensures key in a ==> a[key] == b[key]
    {
      assert SameField(a, b, key);
    }
  }

  // ----- What a path leads to -----

  function At(j: Json, path: seq<string>): Json
    decreases path
  {
    if path == [] then j else At(Field(j, path[0]), path[1..])
  }

  /** Whether the way along a path ends early at a value that is not an object. */
  predicate Blocked(j: Json, path: seq<string>)
    decreases path
  {
    path != [] && ((!j.Object? && !j.Undefined?) || Blocked(Field(j, path[0]), path[1..]))
  }

  /** What a merged configuration should show at a path. */
  function Expected(target: Json, source: Json, path: seq<string>): Json {
    var s, t := At(source, path), At(target, path);
    if Blocked(source, path) then Undefined
    else if s.Undefined? then t
    else if s.Object? && t.Object? then DeepMerge(t, s)
    else s
  }

  lemma {:induction false} UndefinedLeadsNowhere(path: seq<string>)
    ensures At(Undefined, path) == Undefined && !Blocked(Undefined, path)
  {
    if path == [] {
    } else {
      UndefinedLeadsNowhere(path[1..]);
    }
  }

  lemma {:induction false} NothingBeyondAValue(j: Json, path: seq<string>)
    requires !j.Object? && path != []
    ensures At(j, path) == Undefined
  {
    UndefinedLeadsNowhere(path[1..]);
  }

  lemma {:induction false} BlockedLeadsNowhere(j: Json, path: seq<string>)
    requires Blocked(j, path)
    ensures At(j, path) == Undefined
    decreases path
  {
    if !j.Object? {
      NothingBeyondAValue(j, path);
    } else {
      BlockedLeadsNowhere(Field(j, path[0]), path[1..]);
    }
  }

  lemma FieldOfMerge(target: Json, source: Json, key: string)
    requires target.Object? && source.Object?
    ensures var s, t := Field(source, key), Field(target, key);
            Field(DeepMerge(target, source), key) ==
              if s.Object? && t.Object? then DeepMerge(t, s) else if !s.Undefined? then s else t
  {}

  /** Path by path, however deep: a value of the source wins, an undefined one leaves the target's, two
      objects are merged, and whatever the target has below a value of the source is gone. */
  lemma {:induction false} MergeByPath(target: Json, source: Json, path: seq<string>)
    requires target.Object? && source.Object?
    ensures At(DeepMerge(target, source), path) == Expected(target, source, path)
    decreases path
  {
    if path == [] {
    } else {
      var key, rest := path[0], path[1..];
      var s, t := Field(source, key), Field(target, key);
      FieldOfMerge(target, source, key);
      if s.Object? && t.Object? {
        MergeByPath(t, s, rest);
      } else if !s.Undefined? {
        if rest == [] {
          assert At(s, rest) == s && At(t, rest) == t && !Blocked(s, rest);
        } else {
          if s.Object? {
            NothingBeyondAValue(t, rest);
            if Blocked(s, rest) { BlockedLeadsNowhere(s, rest); }
          } else {
            NothingBeyondAValue(s, rest);
            assert Blocked(s, rest) && Blocked(source, path);
          }
        }
      } else {
        UndefinedLeadsNowhere(rest);
      }
    }
  }

  // ----- Merging again -----

  lemma ObjectsEqual(a: Json, b: Json)
    requires a.Object? && b.Object?
    requires a.fields.Keys == b.fields.Keys
    requires forall key :: key in a.fields ==> a.fields[key] == b.fields[key]
    ensures a == b
  {
    assert a.fields == b.fields;
  }

  lemma {:induction false} MergeKeys(target: Json, source: Json)
    requires target.Object? && source.Object?
    ensures forall key :: key in DeepMerge(target, source).fields <==>
              key in target.fields || (key in source.fields && !source.fields[key].Undefined?)
  {}

  lemma {:induction false} MergeWithItself(j: Json)
    requires j.Object?
    ensures DeepMerge(j, j) == j
    decreases j
  {
    MergeKeys(j, j);
    forall key | key in j.fields
      ensures DeepMerge(j, j).fields[key] == j.fields[key]
    {
      if j.fields[key].Object? {
        MergeWithItself(j.fields[key]);
      }
    }
    ObjectsEqual(DeepMerge(j, j), j);
  }

  /** Applying the same override twice is applying it once. */
  lemma {:induction false} MergeAbsorbs(target: Json, source: Json)
    requires target.Object? && source.Object?
    ensures DeepMerge(DeepMerge(target, source), source) == DeepMerge(target, source)
    decreases source
  {
    var once := DeepMerge(target, source);
    var twice := DeepMerge(once, source);
    MergeKeys(target, source);
    MergeKeys(once, source);
    forall key | key in once.fields
      ensures twice.fields[key] == once.fields[key]
    {
      FieldOfMerge(target, source, key);
      FieldOfMerge(once, source, key);
      var s, t := Field(source, key), Field(target, key);
      if s.Object? {
        if t.Object? {
          MergeAbsorbs(t, s);
        } else {
          MergeWithItself(s);
        }
      }
    }
    ObjectsEqual(twice, once);
  }
}
