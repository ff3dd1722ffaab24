// The passes of `_simplify_schemas` that rename, describe and scaffold a
// schema (iceberg_tools/schema/gen3.py, repeated in
// iceberg_tools/schema/simplified.py): `_rename_properties`,
// `_ensure_description`, `_add_extra_properties`,
// `_add_gen3_schema_scaffolding` and the two versions of
// `_simplify_identifiers`.

module SchemaRewrites {

  import opened Text
  import opened Json
  import opened SchemaClassify
  import opened SchemaPasses
  import Inflection

  // ---------------------------------------------------------------------
  // `_rename_properties`

  /** The configured old names, in order. */
  function Olds(renames: seq<(string, string)>): (r: seq<string>)
    ensures |r| == |renames|
    ensures forall i :: 0 <= i < |renames| ==> r[i] == renames[i].0
  {
    seq(|renames|, i requires 0 <= i < |renames| => renames[i].0)
  }

  /** The configured new names, in order. */
  function News(renames: seq<(string, string)>): (r: seq<string>)
    ensures |r| == |renames|
    ensures forall i :: 0 <= i < |renames| ==> r[i] == renames[i].1
  {
    seq(|renames|, i requires 0 <= i < |renames| => renames[i].1)
  }

  /** One entry of `renamed_properties`: an old name that was among the
      property names before the loop moves its value to the new name, and
      the old key is then deleted. */
  function RenameOne(names: seq<Json>, props: Json, oldName: string, newName: string): (r: Result<Json>)
    ensures Str(oldName) !in names ==> r == Ok(props)
    ensures Str(oldName) in names && props.Obj? ==> (r.Ok? <==> Has(props.fields, oldName))
    ensures Str(oldName) in names && !props.Obj? ==> r.Err?
    ensures r.Ok? && Str(oldName) in names ==>
              r.value == Obj(Del(Put(props.fields, newName, At(props.fields, oldName)), oldName))
  {
    if Str(oldName) !in names then Ok(props)
    else if !props.Obj? then Err(TypeError("string indices must be integers"))
    else
      var v :- Index(props.fields, oldName);
      Ok(Obj(Del(Put(props.fields, newName, v), oldName)))
  }

  /** The loop over `renamed_properties`, in its order. */
  function RenameAll(names: seq<Json>, props: Json, renames: seq<(string, string)>): (r: Result<Json>)
    ensures renames == [] ==> r == Ok(props)
    ensures r.Ok? && props.Obj? ==> r.value.Obj?
    decreases |renames|
  {
    if renames == [] then Ok(props)
    else
      var p' :- RenameOne(names, props, renames[0].0, renames[0].1);
      RenameAll(names, p', renames[1..])
  }

  /** `_rename_properties` on one schema; a schema without `properties` is
      skipped, and only `properties` changes. */
  function Rename(renames: seq<(string, string)>, schema: Fields): (r: Result<Fields>)
    ensures !Has(schema, "properties") ==> r == Ok(schema)
    ensures r.Ok? ==> forall k :: k != "properties" ==> Get(r.value, k) == Get(schema, k)
    ensures r.Ok? && Has(schema, "properties") && At(schema, "properties").Obj? ==>
              Has(r.value, "properties") && At(r.value, "properties").Obj?
  {
    if !Has(schema, "properties") then Ok(schema)
    else
      var props := At(schema, "properties");
      var names :- Iterate(props);
      var props' :- RenameAll(names, props, renames);
      Ok(Put(schema, "properties", props'))
  }

  /** `_rename_properties` on one schema, with its loop. */
  method RenameProperties(renames: seq<(string, string)>, schema: Fields) returns (r: Result<Fields>)
    ensures r == Rename(renames, schema)
  {
    if !Has(schema, "properties") {
      return Ok(schema);
    }
    var props := At(schema, "properties");
    var names :- Iterate(props);
    var i := 0;
    while i < |renames|
      invariant 0 <= i <= |renames|
      invariant RenameAll(names, At(schema, "properties"), renames) == RenameAll(names, props, renames[i..])
    {
      assert renames[i..][0] == renames[i] && renames[i..][1..] == renames[i + 1..];
      var step := RenameOne(names, props, renames[i].0, renames[i].1);
      if step.Err? {
        return Err(step.error);
      }
      props := step.value;
      i := i + 1;
    }
    assert renames[i..] == [];
    r := Ok(Put(schema, "properties", props));
  }

  /** Every old name still to come that was among the original names is
      still a key. */
  predicate OldsPresent(names: seq<Json>, cur: Fields, renames: seq<(string, string)>)
  {
    forall i :: 0 <= i < |renames| && Str(renames[i].0) in names ==> Has(cur, renames[i].0)
  }

  /** With distinct old names (a dict's keys) the loop never raises on a
      dict of properties. */
  lemma {:induction false} RenameAllOk(names: seq<Json>, cur: Fields, renames: seq<(string, string)>)
    requires Distinct(Olds(renames)) && OldsPresent(names, cur, renames)
    ensures RenameAll(names, Obj(cur), renames).Ok?
    decreases |renames|
  {
    if renames != [] {
      var (o, n) := renames[0];
      var rest := renames[1..];
      assert Olds(rest) == Olds(renames)[1..];
      var next := if Str(o) in names then Del(Put(cur, n, At(cur, o)), o) else cur;
      assert RenameOne(names, Obj(cur), o, n) == Ok(Obj(next));
      forall i | 0 <= i < |rest| && Str(rest[i].0) in names ensures Has(next, rest[i].0) {
        assert Olds(renames)[i + 1] == rest[i].0 && Olds(renames)[0] == o;
        assert renames[i + 1] == rest[i];
      }
      RenameAllOk(names, next, rest);
    }
  }

  /** The names of a well-formed rename table: old names distinct, new names
      distinct, and no old name reused as a new one. */
  predicate WellFormedRenames(renames: seq<(string, string)>)
  {
    Distinct(Olds(renames)) && Distinct(News(renames)) &&
    forall i, j :: 0 <= i < |renames| && 0 <= j < |renames| ==> renames[i].0 != renames[j].1
  }

  lemma WellFormedRest(renames: seq<(string, string)>)
    requires renames != [] && WellFormedRenames(renames)
    ensures WellFormedRenames(renames[1..])
    ensures renames[0].0 !in Olds(renames[1..]) && renames[0].0 !in News(renames[1..])
    ensures renames[0].1 !in Olds(renames[1..]) && renames[0].1 !in News(renames[1..])
  {
    var rest := renames[1..];
    assert Olds(rest) == Olds(renames)[1..] && News(rest) == News(renames)[1..];
    forall i | 0 <= i < |rest| ensures rest[i].0 != renames[0].0 && rest[i].1 != renames[0].1 {
      assert Olds(renames)[i + 1] == rest[i].0 && News(renames)[i + 1] == rest[i].1;
    }
  }

  /** One well-formed entry moves its value and keeps the rest. */
  lemma RenameStep(names: seq<Json>, cur: Fields, o: string, n: string)
    requires Str(o) in names && Has(cur, o) && o != n
    ensures RenameOne(names, Obj(cur), o, n) == Ok(Obj(Del(Put(cur, n, At(cur, o)), o)))
    ensures var next := Del(Put(cur, n, At(cur, o)), o);
            Get(next, n) == Get(cur, o) && !Has(next, o) &&
            forall k :: k != o && k != n ==> Get(next, k) == Get(cur, k)
  {
  }

  /** What a well-formed table does to the properties: each old name's value
      under its new name, no old name left, every other property kept. */
  ghost predicate Moved(renames: seq<(string, string)>, cur: Fields, r: Fields)
  {
    (forall i :: 0 <= i < |renames| ==> Get(r, renames[i].1) == Get(cur, renames[i].0) && !Has(r, renames[i].0)) &&
    (forall k :: k !in Olds(renames) && k !in News(renames) ==> Get(r, k) == Get(cur, k))
  }

  /** The first entry's move survives the rest of a well-formed table. */
  lemma MovedCons(renames: seq<(string, string)>, cur: Fields, next: Fields, r: Fields)
    requires renames != [] && WellFormedRenames(renames)
    requires var (o, n) := renames[0];
             Get(next, n) == Get(cur, o) && !Has(next, o) &&
             forall k :: k != o && k != n ==> Get(next, k) == Get(cur, k)
    requires Moved(renames[1..], next, r)
    ensures Moved(renames, cur, r)
  {
    var (o, n) := renames[0];
    var rest := renames[1..];
    WellFormedRest(renames);
    assert forall j :: 0 <= j < |rest| ==> rest[j] == renames[j + 1];
    forall i | 0 <= i < |renames|
      ensures Get(r, renames[i].1) == Get(cur, renames[i].0) && !Has(r, renames[i].0)
    {
      if i == 0 {
        assert Get(r, n) == Get(next, n);
        assert Get(r, o) == Get(next, o);
      } else {
        assert renames[i] == rest[i - 1];
        assert renames[i].0 != o && renames[i].0 != n by {
          assert Olds(renames)[i] != Olds(renames)[0];
          assert renames[i].0 != renames[0].1;
        }
      }
    }
    forall k | k !in Olds(renames) && k !in News(renames) ensures Get(r, k) == Get(cur, k) {
      assert Olds(renames)[0] == o && News(renames)[0] == n;
      assert forall j :: 0 <= j < |rest| ==> Olds(rest)[j] == Olds(renames)[j + 1] && News(rest)[j] == News(renames)[j + 1];
      assert k !in Olds(rest) && k !in News(rest);
    }
  }

  /** When every old name is present, a well-formed table moves each old
      name's value to its new name, removes every old name, and leaves every
      other property as it was. */
  lemma {:induction false} RenameAllMoves(names: seq<Json>, cur: Fields, renames: seq<(string, string)>)
    requires WellFormedRenames(renames)
    requires forall i :: 0 <= i < |renames| ==> Str(renames[i].0) in names && Has(cur, renames[i].0)
    ensures RenameAll(names, Obj(cur), renames).Ok?
    ensures Moved(renames, cur, RenameAll(names, Obj(cur), renames).value.fields)
    decreases |renames|
  {
    if renames == [] {
      assert Olds(renames) == [] && News(renames) == [];
    } else {
      var (o, n) := renames[0];
      var rest := renames[1..];
      WellFormedRest(renames);
      assert o != n by {
        assert renames[0].0 != renames[0].1;
      }
      RenameStep(names, cur, o, n);
      var next := Del(Put(cur, n, At(cur, o)), o);
      forall i | 0 <= i < |rest| ensures Str(rest[i].0) in names && Has(next, rest[i].0) {
        assert rest[i] == renames[i + 1];
        assert rest[i].0 in Olds(rest);
      }
      RenameAllMoves(names, next, rest);
      MovedCons(renames, cur, next, RenameAll(names, Obj(next), rest).value.fields);
    }
  }

  /** An entry renaming a present property to itself deletes it. */
  lemma RenameSelfDeletes(names: seq<Json>, props: Fields, name: string)
    requires Str(name) in names && Has(props, name)
    ensures RenameOne(names, Obj(props), name, name).Ok?
    ensures !Has(RenameOne(names, Obj(props), name, name).value.fields, name)
  {
  }

  /** The original names of a dict of properties are its keys. */
  lemma KeyValuesHas(f: Fields, k: string)
    ensures Str(k) in KeyValues(f) <==> Has(f, k)
  {
    if Has(f, k) {
      var i := HasAt(f, k);
      assert KeyValues(f)[i] == Str(k);
    }
    if Str(k) in KeyValues(f) {
      var i :| 0 <= i < |f| && KeyValues(f)[i] == Str(k);
      assert Keys(f)[i] == k;
    }
  }

  /** `_rename_properties` never raises on a dict of properties. */
  lemma RenameOk(renames: seq<(string, string)>, schema: Fields)
    requires Distinct(Olds(renames))
    requires Has(schema, "properties") && At(schema, "properties").Obj?
    ensures Rename(renames, schema).Ok?
  {
    var props := At(schema, "properties").fields;
    forall i | 0 <= i < |renames| && Str(renames[i].0) in KeyValues(props) ensures Has(props, renames[i].0) {
      KeyValuesHas(props, renames[i].0);
    }
    RenameAllOk(KeyValues(props), props, renames);
  }

  /** `_rename_properties` with a well-formed table whose old names are all
      properties: each value moves to its new name and nothing else changes. */
  lemma RenameMovesAll(renames: seq<(string, string)>, schema: Fields)
    requires WellFormedRenames(renames)
    requires Has(schema, "properties") && At(schema, "properties").Obj?
    requires forall i :: 0 <= i < |renames| ==> Has(At(schema, "properties").fields, renames[i].0)
    ensures Rename(renames, schema).Ok?
    ensures var r := Rename(renames, schema).value;
            Has(r, "properties") && At(r, "properties").Obj? &&
            Moved(renames, At(schema, "properties").fields, At(r, "properties").fields)
  {
    var props := At(schema, "properties").fields;
    forall i | 0 <= i < |renames| ensures Str(renames[i].0) in KeyValues(props) {
      KeyValuesHas(props, renames[i].0);
    }
    RenameAllMoves(KeyValues(props), props, renames);
  }

  // ---------------------------------------------------------------------
  // `_ensure_description`

  /** One property: without a `description` it gets its `title`, or `''`.
      `'description' in p` is also a substring test on a string and a
      membership test on a list; a string or list without it has no `.get`. */
  function Describe(p: Json): (r: Result<Json>)
    ensures p.Obj? ==> r.Ok? && r.value.Obj? && Has(r.value.fields, "description")
    ensures p.Obj? && Has(p.fields, "description") ==> r == Ok(p)
    ensures p.Obj? && !Has(p.fields, "description") ==>
              Get(r.value.fields, "description") == Some(GetOr(p.fields, "title", Str("")))
    ensures p.Obj? ==> forall k :: k != "description" ==> Get(r.value.fields, k) == Get(p.fields, k)
    ensures (p.Str? || p.Arr?) ==> (r.Ok? <==> InJ("description", p) == Ok(true))
    ensures r.Ok? && !p.Obj? ==> r == Ok(p)
    ensures !(p.Obj? || p.Str? || p.Arr?) ==> r.Err? && r.error.TypeError?
  {
    var has :- InJ("description", p);
    if has then Ok(p)
    else if !p.Obj? then Err(AttributeError("get"))
    else Ok(Obj(Put(p.fields, "description", GetOr(p.fields, "title", Str("")))))
  }

  /** `Describe` as the loop body over `properties.items()`. */
  function DescribeEntry(name: string, p: Json): Result<Json>
  {
    Describe(p)
  }

  /** `_ensure_description` on one schema; unlike the other passes it does
      not skip a schema without `properties` (KeyError). */
  function EnsureDescription(schema: Fields): (r: Result<Fields>)
    ensures !Has(schema, "properties") ==> r == Err(KeyError("properties"))
    ensures r.Ok? ==> forall k :: k != "properties" ==> Get(r.value, k) == Get(schema, k)
  {
    var props :- PropsAt(schema);
    var props' :- MapValuesSpec(props, DescribeEntry);
    Ok(WithProps(schema, props'))
  }

  /** `_ensure_description` on one schema, with its loop over the properties. */
  method EnsureDescriptions(schema: Fields) returns (r: Result<Fields>)
    ensures r == EnsureDescription(schema)
  {
    var props :- PropsAt(schema);
    var props' :- MapValues(props, DescribeEntry);
    r := Ok(WithProps(schema, props'));
  }

  /** A schema whose properties are all dicts: every property ends up with a
      `description`, the names and their order are kept, and a property that
      had one is unchanged. */
  lemma EnsureDescriptionDescribes(schema: Fields)
    requires PropsAt(schema).Ok? && forall i :: 0 <= i < |PropsAt(schema).value| ==> PropsAt(schema).value[i].1.Obj?
    ensures EnsureDescription(schema).Ok?
    ensures var props := PropsAt(schema).value;
            var props' := PropsAt(EnsureDescription(schema).value).value;
            Keys(props') == Keys(props) &&
            (forall i :: 0 <= i < |props'| ==> props'[i].1.Obj? && Has(props'[i].1.fields, "description")) &&
            (forall i :: 0 <= i < |props| && Has(props[i].1.fields, "description") ==> props'[i] == props[i])
  {
    var props := PropsAt(schema).value;
    MapValuesKeys(props, DescribeEntry);
  }

  /** A value `Describe` accepts is left alone by a second `Describe`. */
  lemma DescribeIdempotent(p: Json)
    requires Describe(p).Ok?
    ensures Describe(Describe(p).value) == Describe(p)
  {
  }

  /** Mapping a function that is idempotent on its results twice is mapping
      it once. */
  lemma MapValuesDescribeTwice(f: Fields)
    requires MapValuesSpec(f, DescribeEntry).Ok?
    ensures MapValuesSpec(MapValuesSpec(f, DescribeEntry).value, DescribeEntry) == MapValuesSpec(f, DescribeEntry)
  {
    var r := MapValuesSpec(f, DescribeEntry).value;
    forall i | 0 <= i < |r| ensures DescribeEntry(r[i].0, r[i].1) == Ok(r[i].1) {
      DescribeIdempotent(f[i].1);
    }
    var r2 := MapValuesSpec(r, DescribeEntry);
    assert r2.Ok?;
    assert forall i :: 0 <= i < |r| ==> r2.value[i] == r[i];
    assert r2.value == r;
  }

  /** `_ensure_description` is idempotent. */
  lemma EnsureDescriptionIdempotent(schema: Fields)
    requires UniqueKeys(schema) && EnsureDescription(schema).Ok?
    ensures EnsureDescription(EnsureDescription(schema).value) == EnsureDescription(schema)
  {
    var props := PropsAt(schema).value;
    MapValuesDescribeTwice(props);
    var props' := MapValuesSpec(props, DescribeEntry).value;
    var s1 := WithProps(schema, props');
    assert PropsAt(s1) == Ok(props');
    PutSame(s1, "properties", Obj(props'));
  }

  // ---------------------------------------------------------------------
  // `_add_extra_properties`

  /** The `project_id` property every schema with properties receives. */
  const ProjectIdProperty: Json :=
    Obj([("type", Str("string")), ("term", Obj([("$ref", Str("_terms.yaml#/project_id"))]))])

  /** `c[k] = v`: only a dict takes a string key. */
  function SetItem(c: Json, k: string, v: Json): (r: Result<Json>)
    ensures r.Ok? <==> c.Obj?
    ensures r.Ok? ==> r.value == Obj(Put(c.fields, k, v))
  {
    if c.Obj? then Ok(Obj(Put(c.fields, k, v))) else Err(TypeError("item assignment"))
  }

  /** The loop over a schema's configured snippets, in their order. */
  function SetAll(props: Json, snippets: Fields): (r: Result<Json>)
    ensures snippets == [] ==> r == Ok(props)
    decreases |snippets|
  {
    if snippets == [] then Ok(props)
    else
      var p' :- SetItem(props, snippets[0].0, snippets[0].1);
      SetAll(p', snippets[1..])
  }

  /** Setting the snippets one by one on a dict is `dict.update`. */
  lemma {:induction false} SetAllUpdate(props: Fields, snippets: Fields)
    ensures SetAll(Obj(props), snippets) == Ok(Obj(Update(props, snippets)))
    decreases |snippets|
  {
    if snippets != [] {
      SetAllUpdate(Put(props, snippets[0].0, snippets[0].1), snippets[1..]);
    }
  }

  /** `extra_properties[title].items()`: the snippets must be a dict. */
  function Snippets(props: Json, snippets: Json): (r: Result<Json>)
    ensures !snippets.Obj? ==> r.Err?
    ensures snippets.Obj? ==> r == SetAll(props, snippets.fields)
  {
    if !snippets.Obj? then Err(AttributeError("items"))
    else SetAll(props, snippets.fields)
  }

  /** `_add_extra_properties` on one schema. */
  function AddExtra(extra: Fields, schema: Fields): (r: Result<Fields>)
    ensures !Has(schema, "properties") ==> r == Ok(schema)
    ensures Has(schema, "properties") && !Has(schema, "title") ==> r == Err(KeyError("title"))
    ensures r.Ok? ==> forall k :: k != "properties" ==> Get(r.value, k) == Get(schema, k)
    ensures r.Ok? && Has(schema, "properties") ==>
              Has(r.value, "properties") && At(r.value, "properties").Obj? &&
              Get(At(r.value, "properties").fields, "project_id") == Some(ProjectIdProperty)
  {
    if !Has(schema, "properties") then Ok(schema)
    else
      var title :- Index(schema, "title");
      var listed :- HasKey(extra, title);
      var props := At(schema, "properties");
      var props1 :- if listed then Snippets(props, Lookup(extra, title).value) else Ok(props);
      var props2 :- SetItem(props1, "project_id", ProjectIdProperty);
      Ok(Put(schema, "properties", props2))
  }

  /** `_add_extra_properties` on one schema, with its loop over the snippets. */
  method AddExtraProperties(extra: Fields, schema: Fields) returns (r: Result<Fields>)
    ensures r == AddExtra(extra, schema)
  {
    if !Has(schema, "properties") {
      return Ok(schema);
    }
    var title :- Index(schema, "title");
    var listed :- HasKey(extra, title);
    var props := At(schema, "properties");
    if listed {
      var snippets := Lookup(extra, title).value;
      if !snippets.Obj? {
        return Err(AttributeError("items"));
      }
      var s := snippets.fields;
      var i := 0;
      while i < |s|
        invariant 0 <= i <= |s|
        invariant SetAll(At(schema, "properties"), s) == SetAll(props, s[i..])
      {
        assert s[i..][0] == s[i] && s[i..][1..] == s[i + 1..];
        var step := SetItem(props, s[i].0, s[i].1);
        if step.Err? {
          return Err(step.error);
        }
        props := step.value;
        i := i + 1;
      }
      assert s[i..] == [];
    }
    var props2 :- SetItem(props, "project_id", ProjectIdProperty);
    r := Ok(Put(schema, "properties", props2));
  }

  /** On a dict of properties: a listed title's snippets are set in order and
      then `project_id`; every other property is kept. */
  lemma AddExtraSnippets(extra: Fields, schema: Fields)
    requires Has(schema, "properties") && At(schema, "properties").Obj?
    requires Get(schema, "title").Some? && Get(schema, "title").value.Str?
    ensures var props := At(schema, "properties").fields;
            var title := Get(schema, "title").value.s;
            (!Has(extra, title) ==>
               AddExtra(extra, schema) == Ok(Put(schema, "properties", Obj(Put(props, "project_id", ProjectIdProperty))))) &&
            (Has(extra, title) && At(extra, title).Obj? ==>
               AddExtra(extra, schema) ==
                 Ok(Put(schema, "properties", Obj(Put(Update(props, At(extra, title).fields), "project_id", ProjectIdProperty)))))
  {
    var props := At(schema, "properties").fields;
    var title := Get(schema, "title").value.s;
    if Has(extra, title) && At(extra, title).Obj? {
      SetAllUpdate(props, At(extra, title).fields);
    }
  }

  /** What the snippets and `project_id` leave in the properties: the
      snippet's value under each snippet name, the old value elsewhere. */
  lemma AddExtraValues(props: Fields, snippets: Fields, k: string)
    requires UniqueKeys(snippets)
    ensures var r := Put(Update(props, snippets), "project_id", ProjectIdProperty);
            Get(r, "project_id") == Some(ProjectIdProperty) &&
            (k != "project_id" && Has(snippets, k) ==> Get(r, k) == Get(snippets, k)) &&
            (k != "project_id" && !Has(snippets, k) ==> Get(r, k) == Get(props, k))
  {
  }

  // ---------------------------------------------------------------------
  // `_add_gen3_schema_scaffolding`

  /** The fixed settings of every schema with properties. */
  function Boilerplate(schema: Fields): (r: Fields)
    ensures Get(r, "program") == Some(Str("*")) && Get(r, "project") == Some(Str("*")) &&
            Get(r, "additionalProperties") == Some(Bool(true))
    ensures forall k :: k != "program" && k != "project" && k != "additionalProperties" ==> Get(r, k) == Get(schema, k)
    ensures UniqueKeys(schema) ==> UniqueKeys(r)
  {
    Put(Put(Put(schema, "program", Str("*")), "project", Str("*")), "additionalProperties", Bool(true))
  }

  /** `schema['id'] = inflection.underscore(schema['$id'])` then
      `del schema['$id']`, when there is a `$id`. */
  function MoveId(schema: Fields): (r: Result<Fields>)
    ensures !Has(schema, "$id") ==> r == Ok(schema)
    ensures Has(schema, "$id") ==> (r.Ok? <==> At(schema, "$id").Str?)
    ensures r.Ok? ==> !Has(r.value, "$id")
    ensures r.Ok? && Has(schema, "$id") ==> Get(r.value, "id") == Some(Str(Inflection.Underscore(At(schema, "$id").s)))
    ensures r.Ok? ==> forall k :: k != "id" && k != "$id" ==> Get(r.value, k) == Get(schema, k)
    ensures r.Ok? && UniqueKeys(schema) ==> UniqueKeys(r.value)
  {
    if !Has(schema, "$id") then Ok(schema)
    else
      match At(schema, "$id")
      case Str(id) => Ok(Del(Put(schema, "id", Str(Inflection.Underscore(id))), "$id"))
      case _ => Err(TypeError("expected string or bytes-like object"))
  }

  /** `config_categories.get(title, 'Clinical')` for a hashable title. */
  function CategoryOf(categories: Fields, title: Json): (r: Json)
    ensures Hashable(title) ==> GetKey(categories, title, Str("Clinical")) == Ok(r)
  {
    if title.Str? then GetOr(categories, title.s, Str("Clinical")) else Str("Clinical")
  }

  /** `_add_gen3_schema_scaffolding` on one schema: `program`, `project`,
      `additionalProperties` and `category` are set, and a `$id` becomes an
      underscored `id`. */
  function Scaffold(categories: Fields, schema: Fields): (r: Result<Fields>)
    ensures !Has(schema, "properties") ==> r == Ok(schema)
    ensures Has(schema, "properties") && !Has(schema, "title") ==> r == Err(KeyError("title"))
    ensures Has(schema, "properties") && Has(schema, "title") && !Hashable(At(schema, "title")) ==> r.Err?
    ensures Has(schema, "properties") && Has(schema, "title") && Hashable(At(schema, "title")) ==>
              r == MoveId(Put(Boilerplate(schema), "category", CategoryOf(categories, At(schema, "title"))))
  {
    if !Has(schema, "properties") then Ok(schema)
    else
      // `schema['title']` is read after the boilerplate is set, which does
      // not touch `title`.
      var s1 := Boilerplate(schema);
      var title :- Index(schema, "title");
      var category :- GetKey(categories, title, Str("Clinical"));
      var s2 := Put(s1, "category", category);
      MoveId(s2)
  }

  /** The schema `Scaffold` hands to `MoveId`. */
  function Scaffolded(categories: Fields, schema: Fields): (s2: Fields)
    requires Has(schema, "properties") && Scaffold(categories, schema).Ok?
    ensures Has(schema, "title") && Hashable(At(schema, "title"))
    ensures Scaffold(categories, schema) == MoveId(s2)
    ensures Get(s2, "category") == Some(CategoryOf(categories, At(schema, "title")))
    ensures forall k :: k != "category" ==> Get(s2, k) == Get(Boilerplate(schema), k)
  {
    Put(Boilerplate(schema), "category", CategoryOf(categories, At(schema, "title")))
  }

  /** `MoveId` keeps every key but `id` and `$id`. */
  lemma MoveIdKeeps(s: Fields, k: string)
    requires MoveId(s).Ok? && k != "id" && k != "$id"
    ensures Get(MoveId(s).value, k) == Get(s, k)
  {
  }

  /** The settings a scaffolded schema carries. */
  lemma ScaffoldSettings(categories: Fields, schema: Fields)
    requires Has(schema, "properties") && Scaffold(categories, schema).Ok?
    ensures var r := Scaffold(categories, schema).value;
            Get(r, "program") == Some(Str("*")) && Get(r, "project") == Some(Str("*")) &&
            Get(r, "additionalProperties") == Some(Bool(true)) &&
            Get(r, "category") == Some(CategoryOf(categories, At(schema, "title"))) &&
            !Has(r, "$id")
  {
    var s2 := Scaffolded(categories, schema);
    var b := Boilerplate(schema);
    assert Get(s2, "program") == Get(b, "program") && Get(s2, "project") == Get(b, "project");
    assert Get(s2, "additionalProperties") == Get(b, "additionalProperties");
    MoveIdKeeps(s2, "program");
    MoveIdKeeps(s2, "project");
    MoveIdKeeps(s2, "additionalProperties");
    MoveIdKeeps(s2, "category");
  }

  /** A scaffolded schema's `id`: the underscored `$id` when there was one,
      the old `id` otherwise. */
  lemma ScaffoldId(categories: Fields, schema: Fields)
    requires Has(schema, "properties") && Scaffold(categories, schema).Ok?
    ensures var r := Scaffold(categories, schema).value;
            (Has(schema, "$id") ==>
               At(schema, "$id").Str? && Get(r, "id") == Some(Str(Inflection.Underscore(At(schema, "$id").s)))) &&
            (!Has(schema, "$id") ==> Get(r, "id") == Get(schema, "id"))
  {
    ScaffoldedIds(categories, schema);
    MoveIdOf(Scaffolded(categories, schema), schema);
  }

  /** The schema handed to `MoveId` still has the old `id` and `$id`. */
  lemma ScaffoldedIds(categories: Fields, schema: Fields)
    requires Has(schema, "properties") && Scaffold(categories, schema).Ok?
    ensures Get(Scaffolded(categories, schema), "$id") == Get(schema, "$id")
    ensures Get(Scaffolded(categories, schema), "id") == Get(schema, "id")
  {
    ScaffoldedKeeps(categories, schema, "$id");
    ScaffoldedKeeps(categories, schema, "id");
  }

  /** The schema handed to `MoveId` keeps every key scaffolding does not set. */
  lemma ScaffoldedKeeps(categories: Fields, schema: Fields, k: string)
    requires Has(schema, "properties") && Scaffold(categories, schema).Ok?
    requires k != "program" && k != "project" && k != "additionalProperties" && k != "category"
    ensures Get(Scaffolded(categories, schema), k) == Get(schema, k)
  {
  }

  /** `MoveId` on a schema that agrees with `schema` on `id` and `$id`. */
  lemma MoveIdOf(s: Fields, schema: Fields)
    requires Get(s, "$id") == Get(schema, "$id") && Get(s, "id") == Get(schema, "id") && MoveId(s).Ok?
    ensures Has(schema, "$id") ==>
              At(schema, "$id").Str? && Get(MoveId(s).value, "id") == Some(Str(Inflection.Underscore(At(schema, "$id").s)))
    ensures !Has(schema, "$id") ==> Get(MoveId(s).value, "id") == Get(schema, "id")
  {
  }

  /** Scaffolding touches no other key. */
  lemma ScaffoldFrame(categories: Fields, schema: Fields, k: string)
    requires Scaffold(categories, schema).Ok?
    requires k != "program" && k != "project" && k != "additionalProperties"
    requires k != "category" && k != "id" && k != "$id"
    ensures Get(Scaffold(categories, schema).value, k) == Get(schema, k)
  {
  }

  /** Scaffolding twice is scaffolding once. */
  lemma ScaffoldIdempotent(categories: Fields, schema: Fields)
    requires UniqueKeys(schema) && Scaffold(categories, schema).Ok?
    ensures Scaffold(categories, Scaffold(categories, schema).value) == Scaffold(categories, schema)
  {
    if Has(schema, "properties") {
      var r := Scaffold(categories, schema).value;
      ScaffoldSettings(categories, schema);
      ScaffoldUnique(categories, schema);
      ScaffoldFrame(categories, schema, "properties");
      ScaffoldFrame(categories, schema, "title");
      BoilerplateSame(r);
      PutSame(r, "category", CategoryOf(categories, At(r, "title")));
    }
  }

  /** Scaffolding keeps keys unique. */
  lemma ScaffoldUnique(categories: Fields, schema: Fields)
    requires UniqueKeys(schema) && Has(schema, "properties") && Scaffold(categories, schema).Ok?
    ensures UniqueKeys(Scaffold(categories, schema).value)
  {
    assert UniqueKeys(Boilerplate(schema));
  }

  /** The boilerplate changes nothing in a schema that already has it. */
  lemma BoilerplateSame(schema: Fields)
    requires UniqueKeys(schema)
    requires Get(schema, "program") == Some(Str("*")) && Get(schema, "project") == Some(Str("*"))
    requires Get(schema, "additionalProperties") == Some(Bool(true))
    ensures Boilerplate(schema) == schema
  {
    PutSame(schema, "program", Str("*"));
    PutSame(schema, "project", Str("*"));
    PutSame(schema, "additionalProperties", Bool(true));
  }

  // ---------------------------------------------------------------------
  // `_simplify_identifiers`

  const TextCodingPrefix := "[system#code representation of identifier.text] "
  const CodingPrefix := "[system#code representation of identifier] "

  /** `identifier['items']['type'] = 'string'` then `del identifier['items']['$ref']`. */
  function RetypeItems(ident: Json): (r: Result<Fields>)
    ensures r.Ok? <==> ObjHas(ident, "items") && At(ident.fields, "items").Obj? &&
                       Has(At(ident.fields, "items").fields, "$ref")
    ensures r.Ok? ==> r.value == Put(ident.fields, "items", Obj(Del(Put(At(ident.fields, "items").fields, "type", Str("string")), "$ref")))
  {
    var items :- Subscript(ident, Str("items"));
    if !items.Obj? then Err(TypeError("item assignment"))
    else
      var items' :- DelKey(Put(items.fields, "type", Str("string")), "$ref");
      Ok(Put(ident.fields, "items", Obj(items')))
  }

  /** A copy of the identifier with a prefixed description. */
  function Prefixed(ident: Fields, prefix: string): (r: Result<Json>)
    ensures r.Ok? <==> Get(ident, "description").Some? && Get(ident, "description").value.Str?
    ensures r.Ok? ==> r.value.Obj?
    ensures r.Ok? ==> Get(r.value.fields, "description") == Some(Str(prefix + At(ident, "description").s))
    ensures r.Ok? ==> forall k :: k != "description" ==> Get(r.value.fields, k) == Get(ident, k)
  {
    var d :- Index(ident, "description");
    if !d.Str? then Err(TypeError("can only concatenate str"))
    else Ok(Obj(Put(ident, "description", Str(prefix + d.s))))
  }

  /** The properties with the rewritten identifier and its two copies. */
  function WithIdentifier(props: Fields, ident': Fields, textCoding: Json, coding: Json): (r: Fields)
    ensures Get(r, "identifier") == Some(Obj(ident'))
    ensures Get(r, "identifier_text_coding") == Some(textCoding)
    ensures Get(r, "identifier_coding") == Some(coding)
    ensures forall k :: k != "identifier" && k != "identifier_coding" && k != "identifier_text_coding" ==>
              Get(r, k) == Get(props, k)
  {
    Put(Put(Put(props, "identifier", Obj(ident')), "identifier_text_coding", textCoding), "identifier_coding", coding)
  }

  /** `_simplify_identifiers` on one schema.  The version in
      iceberg_tools/schema/simplified.py also skips an identifier without
      `items` (`guardItems`); the one in gen3.py does not. */
  function SimplifyIdentifiers(guardItems: bool, schema: Fields): (r: Result<Fields>)
    ensures !Has(schema, "properties") ==> r == Ok(schema)
    ensures r.Ok? ==> forall k :: k != "properties" ==> Get(r.value, k) == Get(schema, k)
  {
    if !Has(schema, "properties") then Ok(schema)
    else
      var props := At(schema, "properties");
      var has :- InJ("identifier", props);
      if !has then Ok(schema)
      else
        var ident :- Subscript(props, Str("identifier"));
        var hasItems :- if guardItems then InJ("items", ident) else Ok(true);
        if !hasItems then Ok(schema)
        else
          var ident' :- RetypeItems(ident);
          var textCoding :- Prefixed(ident', TextCodingPrefix);
          var coding := Prefixed(ident', CodingPrefix).value;
          Ok(WithProps(schema, WithIdentifier(props.fields, ident', textCoding, coding)))
  }

  /** The guard of simplified.py only skips identifiers that gen3.py's
      version raises on: where gen3.py's succeeds, both agree. */
  lemma GuardAgrees(schema: Fields)
    requires SimplifyIdentifiers(false, schema).Ok?
    ensures SimplifyIdentifiers(true, schema) == SimplifyIdentifiers(false, schema)
  {
    if Has(schema, "properties") && At(schema, "properties").Obj? && Has(At(schema, "properties").fields, "identifier") {
      var ident := Subscript(At(schema, "properties"), Str("identifier")).value;
      assert RetypeItems(ident).Ok?;
    }
  }

  /** An identifier as the schemas carry it: a dict whose `items` is a dict
      naming a `$ref`, with a string description. */
  predicate PlainIdentifier(ident: Json)
  {
    ObjHas(ident, "items") && At(ident.fields, "items").Obj? &&
    Has(At(ident.fields, "items").fields, "$ref") &&
    Get(ident.fields, "description").Some? && Get(ident.fields, "description").value.Str?
  }

  /** The rewrite of an identifier and both its copies succeed. */
  predicate IdentifierCopiesOk(ident: Json)
  {
    RetypeItems(ident).Ok? &&
    Prefixed(RetypeItems(ident).value, TextCodingPrefix).Ok? && Prefixed(RetypeItems(ident).value, CodingPrefix).Ok?
  }

  /** The rewritten identifier of `PlainIdentifier` and its two copies. */
  lemma IdentifierCopies(ident: Json)
    requires PlainIdentifier(ident)
    ensures IdentifierCopiesOk(ident)
    ensures var ident' := RetypeItems(ident).value;
            var d := At(ident.fields, "description").s;
            var items' := At(ident', "items").fields;
            Get(items', "type") == Some(Str("string")) && !Has(items', "$ref") &&
            Get(Prefixed(ident', CodingPrefix).value.fields, "description") == Some(Str(CodingPrefix + d)) &&
            Get(Prefixed(ident', TextCodingPrefix).value.fields, "description") == Some(Str(TextCodingPrefix + d))
  {
    var ident' := RetypeItems(ident).value;
    assert Get(ident', "description") == Get(ident.fields, "description");
  }

  /** A schema with a `PlainIdentifier`: the identifier's items become
      strings, `identifier_coding` and `identifier_text_coding` are its copies
      with prefixed descriptions, and no other property changes. */
  lemma IdentifiersRewritten(guardItems: bool, schema: Fields)
    requires Has(schema, "properties") && At(schema, "properties").Obj?
    requires Has(At(schema, "properties").fields, "identifier")
    requires PlainIdentifier(At(At(schema, "properties").fields, "identifier"))
    ensures var props := At(schema, "properties").fields;
            var ident := At(props, "identifier");
            IdentifierCopiesOk(ident) &&
            var ident' := RetypeItems(ident).value;
            SimplifyIdentifiers(guardItems, schema) ==
              Ok(WithProps(schema, WithIdentifier(props, ident', Prefixed(ident', TextCodingPrefix).value,
                                                  Prefixed(ident', CodingPrefix).value)))
  {
    IdentifierCopies(At(At(schema, "properties").fields, "identifier"));
    IdentifierLookups(At(schema, "properties"));
  }

  /** The lookups `_simplify_identifiers` makes before rewriting. */
  lemma IdentifierLookups(props: Json)
    requires props.Obj? && Has(props.fields, "identifier") && PlainIdentifier(At(props.fields, "identifier"))
    ensures InJ("identifier", props) == Ok(true)
    ensures Subscript(props, Str("identifier")) == Ok(At(props.fields, "identifier"))
    ensures InJ("items", At(props.fields, "identifier")) == Ok(true)
  {
  }

  /** The two versions differ only on an identifier without `items`: the
      simplified one skips it, the gen3 one raises KeyError. */
  lemma IdentifiersVersions(schema: Fields)
    ensures Has(schema, "properties") && ObjHas(At(schema, "properties"), "identifier") &&
            At(At(schema, "properties").fields, "identifier").Obj? &&
            !Has(At(At(schema, "properties").fields, "identifier").fields, "items") ==>
              SimplifyIdentifiers(true, schema) == Ok(schema) &&
              SimplifyIdentifiers(false, schema) == Err(KeyError("items"))
    ensures !Has(schema, "properties") || !ObjHas(At(schema, "properties"), "identifier") ||
            ObjHas(At(At(schema, "properties").fields, "identifier"), "items") ==>
              SimplifyIdentifiers(true, schema) == SimplifyIdentifiers(false, schema)
  {
  }
}
