// Plucking nested properties into a schema (`_plucked_properties` and
// `_add_plucked_properties` in iceberg_tools/schema/simplified.py).  A
// configured path `p.a` names a property `p` of the schema and a property
// `a` of the schema that `p` refers to; the schema gains `p_a`, that
// property with a description saying where it was plucked from, and loses
// `p`.  Python stores the sub-schema's property dict itself, so rewriting
// its description rewrites it in the schema it came from as well: the
// model records, for every plucked value, the schema and property it was
// read from (`Loc`) and writes the rewritten value back there.

module SchemaPluck {

  import opened Text
  import opened Json
  import SchemaPasses

  /** `path.split('.')[0]`: the property a pluck path starts from. */
  function PathRoot(path: string): (r: string)
    ensures StartsWith(path, r)
    ensures '.' !in path ==> r == path
  {
    NoDotRoot(path);
    FirstPiece(path, ".")
  }

  lemma {:induction false} NoDotRoot(path: string)
    ensures '.' !in path ==> FirstPiece(path, ".") == path
  {
    if '.' !in path {
      AbsentChar(path, ".", '.');
    }
  }

  /** `'.'.join(path.split('.')[1:]).replace('.', '_')`: the name the rest
      of a path is stored under in `_nested_objects`; it holds no dot. */
  function NestedKey(path: string): (r: string)
    ensures forall i :: 0 <= i < |r| ==> r[i] != '.'
  {
    ReplaceChar(Join(Split(path, ".")[1..], "."), '.', '_')
  }

  /** A two-level path `p.a`: the root is `p` and the rest is stored as `a`. */
  lemma {:induction false} TwoLevelPath(p: string, a: string)
    requires '.' !in p && '.' !in a
    ensures PathRoot(p + "." + a) == p
    ensures NestedKey(p + "." + a) == a
  {
    var s := p + "." + a;
    assert s == p + ['.'] + a;
    IndexOfAfter(p, '.', a);
    assert s[..|p|] == p;
    SplitPair(p, '.', a);
    assert Split(s, ".")[1..] == [a];
    assert ReplaceChar(a, '.', '_') == a;
  }

  /** A three-level path `p.a.b`: the rest is stored under the single name
      `a_b`. */
  lemma {:induction false} ThreeLevelPath(p: string, a: string, b: string)
    requires '.' !in p && '.' !in a && '.' !in b
    ensures PathRoot(p + "." + a + "." + b) == p
    ensures NestedKey(p + "." + a + "." + b) == a + "_" + b
  {
    ThreeLevelRoot(p, a, b);
    SplitThree(p, a, b);
    assert [p, a, b][1..] == [a, b];
    JoinTwo(a, b);
  }

  lemma {:induction false} ThreeLevelRoot(p: string, a: string, b: string)
    requires '.' !in p
    ensures PathRoot(p + "." + a + "." + b) == p
  {
    var s := p + "." + a + "." + b;
    IndexOfAfter(p, '.', a + "." + b);
    assert s == p + ['.'] + (a + "." + b);
    assert s[..|p|] == p;
  }

  lemma {:induction false} SplitThree(p: string, a: string, b: string)
    requires '.' !in p && '.' !in a && '.' !in b
    ensures Split(p + "." + a + "." + b, ".") == [p, a, b]
  {
    var rest := a + "." + b;
    var s := p + "." + rest;
    assert s == p + ['.'] + rest && s == p + "." + a + "." + b;
    IndexOfAfter(p, '.', rest);
    assert s[..|p|] == p;
    assert s[|p| + 1..] == rest;
    assert rest == a + ['.'] + b;
    SplitPair(a, '.', b);
  }

  lemma {:induction false} JoinTwo(a: string, b: string)
    requires '.' !in a && '.' !in b
    ensures ReplaceChar(Join([a, b], "."), '.', '_') == a + "_" + b
  {
    assert Join([a, b], ".") == a + "." + b;
    assert ReplaceChar(a + "." + b, '.', '_') == a + "_" + b;
  }

  /** `ref.replace('.yaml', '')`, which needs a string. */
  function RefKey(ref: Json): (r: Result<string>)
    ensures r.Ok? <==> ref.Str?
    ensures ref.Str? ==> r.value == Replace(ref.s, ".yaml", "")
  {
    if ref.Str? then Ok(Replace(ref.s, ".yaml", "")) else Err(AttributeError("replace"))
  }

  /** The reference `T.yaml` names the schema `T`. */
  lemma {:induction false} YamlKey(t: string)
    requires '.' !in t
    ensures IndexOf(t + ".yaml", ".yaml") == Some(|t|)
    ensures Replace(t + ".yaml", ".yaml", "") == t
  {
    var s := t + ".yaml";
    if t == [] {
      assert s[..5] == ".yaml";
    } else {
      assert s[..5] != ".yaml" by { assert s[..5][0] == t[0]; }
      assert s[1..] == t[1..] + ".yaml";
      YamlKey(t[1..]);
    }
    assert s[|t| + 5..] == "";
    assert Split("", ".yaml") == [""];
    assert s[..|t|] == t;
    assert Split(s, ".yaml") == [t, ""];
  }

  /** Where a dict read from `schemas` lives: the property `name` of the
      schema stored under `schema`. */
  datatype Loc = Loc(schema: string, name: string)

  /** `schemas[c['$ref'].replace('.yaml', '')]`, with the key it is stored
      under. */
  function SchemaAt(schemas: Fields, c: Json): (r: Result<(string, Json)>)
    ensures r.Ok? ==> Get(schemas, r.value.0) == Some(r.value.1)
  {
    var ref :- Subscript(c, Str("$ref"));
    var key :- RefKey(ref);
    var s :- Index(schemas, key);
    Ok((key, s))
  }

  /** After reading a sub-property, the walk moves on to the schema its
      `$ref` names, and then to the one its `items.$ref` names; a
      sub-property with neither keeps the current sub-schema, stored under
      `key`. */
  function NextSchema(schemas: Fields, sp: Json, key: string, sub: Json): (r: Result<(string, Json)>)
    ensures sp.Obj? && !Has(sp.fields, "$ref") && !Has(sp.fields, "items") ==> r == Ok((key, sub))
  {
    var direct :- InJ("$ref", sp);
    var sub1 :- if direct then SchemaAt(schemas, sp) else Ok((key, sub));
    var items :- ObjGet(sp, "items");
    var viaItems :- InJ("$ref", if items.Some? then items.value else Obj([]));
    if viaItems then SchemaAt(schemas, items.value) else Ok(sub1)
  }

  /** What a path through an `Extension` sub-schema plucks. */
  function ExtensionValue(): Json
  {
    Obj([("description", Str("Value of extension")), ("type", Str("string"))])
  }

  /** The schema name a property's `$ref` gives. */
  function RefName(c: Json): string
    requires c.Obj? && Has(c.fields, "$ref") && At(c.fields, "$ref").Str?
  {
    Replace(At(c.fields, "$ref").s, ".yaml", "")
  }

  /** The sub-schema a property's `$ref` names: `assert key in schemas`. */
  function SubSchema(schemas: Fields, c: Json): (r: Result<Json>)
    ensures r.Ok? ==> c.Obj? && Has(c.fields, "$ref") && At(c.fields, "$ref").Str?
    ensures r.Ok? ==> Get(schemas, RefName(c)) == Some(r.value)
    ensures c.Obj? && Has(c.fields, "$ref") && At(c.fields, "$ref").Str? && !Has(schemas, RefName(c)) ==>
              r == Err(AssertionError(RefName(c)))
  {
    var ref :- Subscript(c, Str("$ref"));
    var key :- RefKey(ref);
    if Has(schemas, key) then Ok(At(schemas, key)) else Err(AssertionError(key))
  }

  /** A value stored in `_nested_objects` and, when it is a dict the walk
      read out of `schemas` rather than a fresh one, where that dict lives:
      Python stores the dict itself, not a copy. */
  datatype Stored = Stored(value: Json, from: Option<Loc>)

  /** The inner loop for a list property: the stored name is split on `_`
      and each part is looked up in the current sub-schema (stored under
      `key`), which then moves on; the value last looked up is the one
      plucked.  In an `Extension` sub-schema every remaining part plucks a
      fresh fixed string property. */
  function WalkList(schemas: Fields, sub: Json, key: string, parts: seq<string>, cur: Stored): (r: Result<Stored>)
    ensures parts != [] && Subscript(sub, Str("title")) == Ok(Str("Extension")) ==> r == Ok(Stored(ExtensionValue(), None))
    ensures parts == [] ==> r == Ok(cur)
    decreases |parts|
  {
    if parts == [] then Ok(cur)
    else
      var title :- Subscript(sub, Str("title"));
      if title == Str("Extension") then WalkList(schemas, sub, key, parts[1..], Stored(ExtensionValue(), None))
      else
        var sprops :- Subscript(sub, Str("properties"));
        var present :- InJ(parts[0], sprops);
        if !present then Err(AssertionError(parts[0]))
        else
          var sp :- Subscript(sprops, Str(parts[0]));
          var next :- NextSchema(schemas, sp, key, sub);
          WalkList(schemas, next.1, next.0, parts[1..], Stored(sp, Some(Loc(key, parts[0]))))
  }

  /** The origin recorded for a stored name, if any. */
  function Origin(from: map<string, Loc>, k: string): Option<Loc>
  {
    if k in from then Some(from[k]) else None
  }

  /** The origins after storing a value under `k`. */
  function Remember(from: map<string, Loc>, k: string, o: Option<Loc>): map<string, Loc>
  {
    if o.Some? then from[k := o.value] else from - {k}
  }

  /** The loop over a list property's stored names: each gets the value its
      walk plucks, starting from the sub-schema the property's `items.$ref`
      names, and its origin is recorded. */
  function ListPaths(schemas: Fields, items: Json, nested: Fields, from: map<string, Loc>, ks: seq<string>):
    (r: Result<(Fields, map<string, Loc>)>)
    ensures r.Ok? && nested != [] ==> r.value.0 != []
    ensures r.Ok? && ks != [] ==> items.Obj? && Has(items.fields, "$ref")
    decreases |ks|
  {
    if ks == [] then Ok((nested, from))
    else
      var sub :- SubSchema(schemas, items);
      var w :- WalkList(schemas, sub, RefName(items), Split(ks[0], "_"), Stored(GetOr(nested, ks[0], Obj([])), Origin(from, ks[0])));
      ListPaths(schemas, items, Put(nested, ks[0], w.value), Remember(from, ks[0], w.from), ks[1..])
  }

  /** The loop over a scalar property's stored names.  Each name is looked
      up whole in the current sub-schema (a stored name holds no dot, so
      splitting it on `.` gives the name itself), and the sub-schema moves
      on from one name to the next. */
  function ScalarPaths(schemas: Fields, sub: Json, key: string, nested: Fields, from: map<string, Loc>, ks: seq<string>):
    (r: Result<(Fields, map<string, Loc>)>)
    ensures r.Ok? && nested != [] ==> r.value.0 != []
    decreases |ks|
  {
    if ks == [] then Ok((nested, from))
    else
      var sprops :- Subscript(sub, Str("properties"));
      var sp :- Subscript(sprops, Str(ks[0]));
      var next :- NextSchema(schemas, sp, key, sub);
      ScalarPaths(schemas, next.1, next.0, Put(nested, ks[0], sp), from[ks[0] := Loc(key, ks[0])], ks[1..])
  }

  /** The second loop of `_plucked_properties`, for one plucked property:
      a list property whose `items` has a `$ref` resolves its stored names
      through its item schema, a scalar `$ref` property through its own;
      any other property is left as it is.  The origins of the stored
      values come with it. */
  function ResolveSource(schemas: Fields, v: Fields): (r: Result<(Fields, map<string, Loc>)>)
    ensures r.Ok? ==> forall k :: k != "_nested_objects" ==> Get(r.value.0, k) == Get(v, k)
    ensures r.Ok? && Get(v, "_nested_objects").Some? && Get(v, "_nested_objects").value.Obj? ==>
              Get(r.value.0, "_nested_objects").Some? && Get(r.value.0, "_nested_objects").value.Obj? &&
              (Get(v, "_nested_objects").value.fields != [] ==> Get(r.value.0, "_nested_objects").value.fields != [])
  {
    if Has(v, "items") then
      var viaItems :- InJ("$ref", At(v, "items"));
      if !viaItems then Ok((v, map[]))
      else
        var nested :- ObjAt(v, "_nested_objects");
        var res :- ListPaths(schemas, At(v, "items"), nested, map[], Keys(nested));
        Ok((Put(v, "_nested_objects", Obj(res.0)), res.1))
    else if Has(v, "$ref") then
      var sub :- SubSchema(schemas, Obj(v));
      var nested :- ObjAt(v, "_nested_objects");
      var res :- ScalarPaths(schemas, sub, RefName(Obj(v)), nested, map[], Keys(nested));
      Ok((Put(v, "_nested_objects", Obj(res.0)), res.1))
    else Ok((v, map[]))
  }

  /** `p['_nested_objects']` as the first loop finds it: absent (it is then
      created empty), or a dict to be updated. */
  function ExistingNested(p: Fields): (r: Result<Fields>)
    ensures !Has(p, "_nested_objects") ==> r == Ok([])
    ensures r.Ok? && Has(p, "_nested_objects") ==> At(p, "_nested_objects") == Obj(r.value)
  {
    match Get(p, "_nested_objects")
    case None => Ok([])
    case Some(Obj(n)) => Ok(n)
    case Some(_) => Err(AttributeError("update"))
  }

  /** A plucked property as the first loop leaves it: a dict whose
      `_nested_objects` dict has at least one entry. */
  predicate NonEmptyNested(v: Option<Json>)
  {
    v.Some? && v.value.Obj? && Get(v.value.fields, "_nested_objects").Some? &&
    Get(v.value.fields, "_nested_objects").value.Obj? &&
    Get(v.value.fields, "_nested_objects").value.fields != []
  }

  /** Every property recorded as plucked carries its stored names. */
  predicate Bookkept(schema: Fields, sources: seq<string>)
  {
    sources == [] ||
    (Get(schema, "properties").Some? && Get(schema, "properties").value.Obj? &&
     forall k :: k in sources ==> NonEmptyNested(Get(Get(schema, "properties").value.fields, k)))
  }

  /** The first loop of `_plucked_properties`, for one configured path: its
      root must be a property of the schema, which is recorded as plucked
      and gains an empty entry for the rest of the path in its
      `_nested_objects` dict. */
  function Request(schema: Fields, sources: seq<string>, path: Json): (r: Result<(Fields, seq<string>)>)
    ensures r.Ok? ==> path.Str? && PathRoot(path.s) in r.value.1
    ensures r.Ok? ==> forall k :: k in sources ==> k in r.value.1
    ensures r.Ok? ==> forall k :: k != "properties" ==> Get(r.value.0, k) == Get(schema, k)
    ensures r.Ok? && Bookkept(schema, sources) ==> Bookkept(r.value.0, r.value.1)
    ensures path.Str? && Get(schema, "properties").Some? && Get(schema, "properties").value.Obj? &&
            !Has(Get(schema, "properties").value.fields, PathRoot(path.s)) ==>
              r == Err(AssertionError(PathRoot(path.s)))
  {
    if !path.Str? then Err(AttributeError("split"))
    else
      var k := PathRoot(path.s);
      var pj :- Index(schema, "properties");
      var present :- InJ(k, pj);
      if !present then Err(AssertionError(k))
      else
        var p :- Subscript(pj, Str(k));
        if !p.Obj? then Err(TypeError("item assignment"))
        else
          var nested :- ExistingNested(p.fields);
          Ok(Record(schema, pj.fields, sources, k, p.fields, Put(nested, NestedKey(path.s), Obj([]))))
  }

  /** `plucked_properties[k] = props[k]` and the update of its stored
      names: `k` is recorded once, in the order first seen. */
  function Record(schema: Fields, props: Fields, sources: seq<string>, k: string, pf: Fields, nested: Fields):
    (r: (Fields, seq<string>))
    requires Get(schema, "properties") == Some(Obj(props)) && nested != []
    ensures k in r.1 && forall k' :: k' in sources ==> k' in r.1
    ensures forall k' :: k' != "properties" ==> Get(r.0, k') == Get(schema, k')
    ensures Get(r.0, "properties") == Some(Obj(Put(props, k, Obj(Put(pf, "_nested_objects", Obj(nested))))))
    ensures Bookkept(schema, sources) ==> Bookkept(r.0, r.1)
  {
    var props1 := Put(props, k, Obj(Put(pf, "_nested_objects", Obj(nested))));
    (Put(schema, "properties", Obj(props1)), if k in sources then sources else sources + [k])
  }

  /** The first loop over all configured paths of the schema. */
  function Requests(schema: Fields, sources: seq<string>, paths: seq<Json>, i: nat): (r: Result<(Fields, seq<string>)>)
    requires i <= |paths|
    ensures r.Ok? ==> forall j :: i <= j < |paths| ==> paths[j].Str? && PathRoot(paths[j].s) in r.value.1
    ensures r.Ok? ==> forall k :: k in sources ==> k in r.value.1
    ensures r.Ok? && Bookkept(schema, sources) ==> Bookkept(r.value.0, r.value.1)
    decreases |paths| - i
  {
    if i == |paths| then Ok((schema, sources))
    else
      var next :- Request(schema, sources, paths[i]);
      Requests(next.0, next.1, paths, i + 1)
  }

  /** The second loop over the plucked properties, in the order they were
      first recorded; the origins of each one's stored values are kept
      under its name. */
  function Resolves(schemas: Fields, schema: Fields, from: map<string, map<string, Loc>>, sources: seq<string>, i: nat):
    (r: Result<(Fields, map<string, map<string, Loc>>)>)
    requires i <= |sources|
    ensures r.Ok? && Bookkept(schema, sources) ==> Bookkept(r.value.0, sources)
    decreases |sources| - i
  {
    if i == |sources| then Ok((schema, from))
    else
      var props :- ObjAt(schema, "properties");
      var v :- ObjAt(props, sources[i]);
      var v1 :- ResolveSource(schemas, v);
      Resolves(schemas, Put(schema, "properties", Obj(Put(props, sources[i], Obj(v1.0)))), from[sources[i] := v1.1], sources, i + 1)
  }

  /** `[Plucked from {title}.{source}] ` */
  function PluckedPrefix(title: Json, src: string): string
  {
    "[Plucked from " + Format(title) + "." + src + "] "
  }

  /** What `_add_plucked_properties` changes while it works on one schema:
      that schema's properties, and the other schemas through the dicts
      plucked out of them. */
  datatype Insertion = Insertion(props: Fields, schemas: Fields)

  /** The property dict at `loc`, if it is there. */
  function PropAt(schemas: Fields, loc: Loc): Option<Json>
  {
    match Get(schemas, loc.schema)
    case Some(Obj(sf)) =>
      (match Get(sf, "properties")
       case Some(Obj(sp)) => Get(sp, loc.name)
       case _ => None)
    case _ => None
  }

  /** `schemas[loc.schema]['properties'][loc.name]` becomes `v`. */
  function SetProp(schemas: Fields, loc: Loc, v: Json): (r: Fields)
    ensures Keys(r) == Keys(schemas)
    ensures forall k :: k != loc.schema ==> Get(r, k) == Get(schemas, k)
    ensures PropAt(schemas, loc).Some? ==> PropAt(r, loc) == Some(v)
  {
    match Get(schemas, loc.schema)
    case Some(Obj(sf)) =>
      (match Get(sf, "properties")
       case Some(Obj(sp)) => Put(schemas, loc.schema, Obj(Put(sf, "properties", Obj(Put(sp, loc.name, v)))))
       case _ => schemas)
    case _ => schemas
  }

  /** Rewriting a plucked dict rewrites it where it came from: in the
      schema being plucked into (stored under `key`), or in another one. */
  function WriteThrough(ins: Insertion, key: string, o: Option<Loc>, v: Json): (r: Insertion)
    ensures Keys(r.schemas) == Keys(ins.schemas)
  {
    if o.None? then ins
    else if o.value.schema == key then Insertion(Put(ins.props, o.value.name, v), ins.schemas)
    else Insertion(ins.props, SetProp(ins.schemas, o.value, v))
  }

  /** The inner loop of `_add_plucked_properties`: every stored value of one
      plucked property gets the prefixed description, in place, and is added
      under `{source}_{name}`. */
  function InsertNested(ins: Insertion, key: string, title: Json, src: string, nested: Fields, from: map<string, Loc>):
    (r: Result<Insertion>)
    ensures r.Ok? ==> Keys(r.value.schemas) == Keys(ins.schemas)
    decreases |nested|
  {
    if nested == [] then Ok(ins)
    else
      var np := nested[0].1;
      var desc :- Subscript(np, Str("description"));
      var np1 := Obj(Put(np.fields, "description", Str(PluckedPrefix(title, src) + Format(desc))));
      var ins1 := WriteThrough(ins, key, Origin(from, nested[0].0), np1);
      InsertNested(Insertion(Put(ins1.props, src + "_" + nested[0].0, np1), ins1.schemas), key, title, src, nested[1..], from)
  }

  /** Adding the stored values of `src` touches only names that start with
      `{src}_`, and the names they were plucked from. */
  lemma {:induction false} InsertNestedFrame(ins: Insertion, key: string, title: Json, src: string, nested: Fields,
                                             from: map<string, Loc>, k: string)
    requires InsertNested(ins, key, title, src, nested, from).Ok?
    requires !StartsWith(k, src + "_") && Loc(key, k) !in from.Values
    ensures Get(InsertNested(ins, key, title, src, nested, from).value.props, k) == Get(ins.props, k)
    decreases |nested|
  {
    if nested != [] {
      var np := nested[0].1;
      var desc := Subscript(np, Str("description")).value;
      var np1 := Obj(Put(np.fields, "description", Str(PluckedPrefix(title, src) + Format(desc))));
      var o := Origin(from, nested[0].0);
      assert o.Some? ==> o.value in from.Values;
      var ins1 := WriteThrough(ins, key, o, np1);
      PrefixOf(src + "_", nested[0].0);
      InsertNestedFrame(Insertion(Put(ins1.props, src + "_" + nested[0].0, np1), ins1.schemas), key, title, src, nested[1..], from, k);
    }
  }

  /** The origins recorded for a plucked property. */
  function OriginsOf(from: map<string, map<string, Loc>>, src: string): map<string, Loc>
  {
    if src in from then from[src] else map[]
  }

  /** The outer loop of `_add_plucked_properties`: every plucked property's
      stored values are added, and the properties that had any are
      collected for deletion. */
  function InsertAll(ins: Insertion, key: string, added: seq<string>, title: Json, plucked: seq<(string, Fields)>,
                     from: map<string, map<string, Loc>>, i: nat): (r: Result<(Insertion, seq<string>)>)
    requires i <= |plucked|
    ensures r.Ok? ==> Keys(r.value.0.schemas) == Keys(ins.schemas)
    decreases |plucked| - i
  {
    if i == |plucked| then Ok((ins, added))
    else
      var ins1 :- InsertNested(ins, key, title, plucked[i].0, plucked[i].1, OriginsOf(from, plucked[i].0));
      InsertAll(ins1, key, if plucked[i].1 != [] then added + [plucked[i].0] else added, title, plucked, from, i + 1)
  }

  /** Every plucked property that had stored values is collected for
      deletion. */
  lemma {:induction false} InsertAllCollects(ins: Insertion, key: string, added: seq<string>, title: Json,
                                             plucked: seq<(string, Fields)>, from: map<string, map<string, Loc>>, i: nat)
    requires i <= |plucked|
    requires InsertAll(ins, key, added, title, plucked, from, i).Ok?
    ensures var r := InsertAll(ins, key, added, title, plucked, from, i).value;
            (forall k :: k in added ==> k in r.1) &&
            forall j :: i <= j < |plucked| && plucked[j].1 != [] ==> plucked[j].0 in r.1
    decreases |plucked| - i
  {
    if i < |plucked| {
      var ins1 := InsertNested(ins, key, title, plucked[i].0, plucked[i].1, OriginsOf(from, plucked[i].0)).value;
      var added' := if plucked[i].1 != [] then added + [plucked[i].0] else added;
      InsertAllCollects(ins1, key, added', title, plucked, from, i + 1);
      var r := InsertAll(ins1, key, added', title, plucked, from, i + 1).value;
      assert InsertAll(ins, key, added, title, plucked, from, i).value == r;
      assert forall k :: k in added ==> k in added';
      forall j | i <= j < |plucked| && plucked[j].1 != [] ensures plucked[j].0 in r.1 {
        if j == i {
          assert plucked[i].0 in added';
        }
      }
    }
  }

  /** What `_plucked_properties` returns: each plucked property's name with
      its `_nested_objects` dict, in the order they were first recorded. */
  function PluckedOf(props: Fields, sources: seq<string>): (r: Result<seq<(string, Fields)>>)
    ensures r.Ok? ==> |r.value| == |sources|
    ensures r.Ok? ==> forall j :: 0 <= j < |sources| ==> r.value[j].0 == sources[j]
    ensures (forall k :: k in sources ==> NonEmptyNested(Get(props, k))) ==>
              r.Ok? && forall j :: 0 <= j < |sources| ==> r.value[j].1 != []
  {
    if sources == [] then Ok([])
    else
      var v :- ObjAt(props, sources[0]);
      var nested :- ObjAt(v, "_nested_objects");
      var rest :- PluckedOf(props, sources[1..]);
      Ok([(sources[0], nested)] + rest)
  }

  /** `any(name == schema['title'] for name in nested_objects)`: the title
      is read only when some schema is configured. */
  function Listed(schema: Fields, nestedObjects: Fields): (r: Result<bool>)
    ensures r == Ok(true) ==> Has(schema, "title") && At(schema, "title").Str? && Has(nestedObjects, At(schema, "title").s)
    ensures Has(schema, "title") && At(schema, "title").Str? && Has(nestedObjects, At(schema, "title").s) ==> r == Ok(true)
    ensures nestedObjects == [] ==> r == Ok(false)
    ensures nestedObjects != [] && !Has(schema, "title") ==> r == Err(KeyError("title"))
  {
    if nestedObjects == [] then Ok(false)
    else
      var t :- Index(schema, "title");
      Ok(t.Str? && Has(nestedObjects, t.s))
  }

  /** The configured paths of a listed schema. */
  function PathsOf(schema: Fields, nestedObjects: Fields): (r: Result<seq<Json>>)
    requires Has(schema, "title") && At(schema, "title").Str? && Has(nestedObjects, At(schema, "title").s)
  {
    Iterate(At(nestedObjects, At(schema, "title").s))
  }

  /** `_add_plucked_properties` on one schema, stored under `key`, with
      `schemas` as they stand when its turn comes: the schema as it leaves
      the turn, and the schemas after the writes through the plucked
      dicts. */
  function PluckSchema(schemas: Fields, nestedObjects: Fields, key: string, schema: Fields): (r: Result<(Fields, Fields)>)
    ensures r.Ok? ==> Keys(r.value.1) == Keys(schemas)
  {
    var listed :- Listed(schema, nestedObjects);
    if !listed then Ok((schema, schemas))
    else
      var paths :- PathsOf(schema, nestedObjects);
      var req :- Requests(schema, [], paths, 0);
      var res :- Resolves(schemas, req.0, map[], req.1, 0);
      if req.1 == [] then Ok((res.0, schemas))
      else
        var props :- ObjAt(res.0, "properties");
        var plucked :- PluckedOf(props, req.1);
        var ins :- InsertAll(Insertion(props, schemas), key, [], At(schema, "title"), plucked, res.1, 0);
        Ok((Put(res.0, "properties", Obj(SchemaPasses.Without(ins.0.props, ins.1))), ins.0.schemas))
  }

  /** Every configured path's root property is gone from a plucked schema. */
  lemma {:induction false} PluckRemovesRoots(schemas: Fields, nestedObjects: Fields, key: string, schema: Fields)
    requires PluckSchema(schemas, nestedObjects, key, schema).Ok?
    requires Listed(schema, nestedObjects) == Ok(true)
    ensures var r := PluckSchema(schemas, nestedObjects, key, schema).value.0;
            var paths := PathsOf(schema, nestedObjects).value;
            forall j :: 0 <= j < |paths| ==>
              paths[j].Str? && Get(r, "properties").Some? && Get(r, "properties").value.Obj? &&
              !Has(Get(r, "properties").value.fields, PathRoot(paths[j].s))
  {
    var paths := PathsOf(schema, nestedObjects).value;
    var req := Requests(schema, [], paths, 0).value;
    var res := Resolves(schemas, req.0, map[], req.1, 0).value;
    forall j | 0 <= j < |paths| ensures PathRoot(paths[j].s) in req.1 { }
    if paths != [] {
      assert PathRoot(paths[0].s) in req.1;
      assert Bookkept(res.0, req.1);
      var props := ObjAt(res.0, "properties").value;
      var plucked := PluckedOf(props, req.1).value;
      var ins := InsertAll(Insertion(props, schemas), key, [], At(schema, "title"), plucked, res.1, 0).value;
      InsertAllCollects(Insertion(props, schemas), key, [], At(schema, "title"), plucked, res.1, 0);
      forall k | k in req.1 ensures k in ins.1 {
        var j :| 0 <= j < |req.1| && req.1[j] == k;
        assert plucked[j].0 == k && plucked[j].1 != [];
      }
    }
  }

  /** `del props[name]` for every collected name; a collected name is the
      name of a property that was plucked, so it is still there. */
  method DeleteAll(props: Fields, names: seq<string>) returns (out: Fields)
    ensures out == SchemaPasses.Without(props, names)
  {
    out := props;
    SchemaPasses.WithoutNothing(props);
    var j := 0;
    while j < |names|
      invariant 0 <= j <= |names|
      invariant out == SchemaPasses.Without(props, names[..j])
    {
      SchemaPasses.DelWithout(props, names[..j], names[j]);
      assert names[..j + 1] == names[..j] + [names[j]];
      out := Del(out, names[j]);
      j := j + 1;
    }
    TakeAll(names);
  }

  /** The first loop of `_plucked_properties`. */
  method RequestLoop(schema: Fields, paths: seq<Json>) returns (r: Result<(Fields, seq<string>)>)
    ensures r == Requests(schema, [], paths, 0)
  {
    var cur := schema;
    var sources: seq<string> := [];
    var i := 0;
    while i < |paths|
      invariant 0 <= i <= |paths|
      invariant Requests(schema, [], paths, 0) == Requests(cur, sources, paths, i)
    {
      var next := Request(cur, sources, paths[i]);
      if next.Err? {
        return Err(next.error);
      }
      cur, sources := next.value.0, next.value.1;
      i := i + 1;
    }
    return Ok((cur, sources));
  }

  /** The second loop of `_plucked_properties`. */
  method ResolveLoop(schemas: Fields, schema: Fields, sources: seq<string>) returns (r: Result<(Fields, map<string, map<string, Loc>>)>)
    ensures r == Resolves(schemas, schema, map[], sources, 0)
  {
    var cur := schema;
    var from: map<string, map<string, Loc>> := map[];
    var i := 0;
    while i < |sources|
      invariant 0 <= i <= |sources|
      invariant Resolves(schemas, schema, map[], sources, 0) == Resolves(schemas, cur, from, sources, i)
    {
      var props := ObjAt(cur, "properties");
      if props.Err? {
        return Err(props.error);
      }
      var v := ObjAt(props.value, sources[i]);
      if v.Err? {
        return Err(v.error);
      }
      var v1 := ResolveSource(schemas, v.value);
      if v1.Err? {
        return Err(v1.error);
      }
      cur := Put(cur, "properties", Obj(Put(props.value, sources[i], Obj(v1.value.0))));
      from := from[sources[i] := v1.value.1];
      i := i + 1;
    }
    return Ok((cur, from));
  }

  /** The inner loop of `_add_plucked_properties`. */
  method InsertNestedLoop(ins: Insertion, key: string, title: Json, src: string, nested: Fields, from: map<string, Loc>)
    returns (r: Result<Insertion>)
    ensures r == InsertNested(ins, key, title, src, nested, from)
  {
    var cur := ins;
    var i := 0;
    while i < |nested|
      invariant 0 <= i <= |nested|
      invariant InsertNested(ins, key, title, src, nested, from) == InsertNested(cur, key, title, src, nested[i..], from)
    {
      assert nested[i..][0] == nested[i] && nested[i..][1..] == nested[i + 1..];
      var np := nested[i].1;
      var desc := Subscript(np, Str("description"));
      if desc.Err? {
        return Err(desc.error);
      }
      var np1 := Obj(Put(np.fields, "description", Str(PluckedPrefix(title, src) + Format(desc.value))));
      cur := WriteThrough(cur, key, Origin(from, nested[i].0), np1);
      cur := Insertion(Put(cur.props, src + "_" + nested[i].0, np1), cur.schemas);
      i := i + 1;
    }
    return Ok(cur);
  }

  /** One turn of the outer insertion loop. */
  lemma {:induction false} InsertAllStep(ins: Insertion, key: string, added: seq<string>, title: Json,
                                         plucked: seq<(string, Fields)>, from: map<string, map<string, Loc>>, i: nat)
    requires i < |plucked|
    ensures var next := InsertNested(ins, key, title, plucked[i].0, plucked[i].1, OriginsOf(from, plucked[i].0));
            InsertAll(ins, key, added, title, plucked, from, i) ==
              if next.Err? then Err(next.error)
              else InsertAll(next.value, key, if plucked[i].1 != [] then added + [plucked[i].0] else added, title, plucked, from, i + 1)
  {
  }

  /** The outer loop of `_add_plucked_properties`. */
  method InsertLoop(ins: Insertion, key: string, title: Json, plucked: seq<(string, Fields)>, from: map<string, map<string, Loc>>)
    returns (r: Result<(Insertion, seq<string>)>)
    ensures r == InsertAll(ins, key, [], title, plucked, from, 0)
  {
    var cur := ins;
    var added: seq<string> := [];
    var i := 0;
    while i < |plucked|
      invariant 0 <= i <= |plucked|
      invariant InsertAll(ins, key, [], title, plucked, from, 0) == InsertAll(cur, key, added, title, plucked, from, i)
    {
      var next := InsertNestedLoop(cur, key, title, plucked[i].0, plucked[i].1, OriginsOf(from, plucked[i].0));
      InsertAllStep(cur, key, added, title, plucked, from, i);
      if next.Err? {
        return Err(next.error);
      }
      cur := next.value;
      if plucked[i].1 != [] {
        added := added + [plucked[i].0];
      }
      i := i + 1;
    }
    return Ok((cur, added));
  }

  /** `_add_plucked_properties` on one schema. */
  method AddPlucked(schemas: Fields, nestedObjects: Fields, key: string, schema: Fields) returns (r: Result<(Fields, Fields)>)
    ensures r == PluckSchema(schemas, nestedObjects, key, schema)
  {
    var listed := Listed(schema, nestedObjects);
    if listed.Err? {
      return Err(listed.error);
    }
    if !listed.value {
      return Ok((schema, schemas));
    }
    var paths := PathsOf(schema, nestedObjects);
    if paths.Err? {
      return Err(paths.error);
    }
    var req := RequestLoop(schema, paths.value);
    if req.Err? {
      return Err(req.error);
    }
    var res := ResolveLoop(schemas, req.value.0, req.value.1);
    if res.Err? {
      return Err(res.error);
    }
    if req.value.1 == [] {
      return Ok((res.value.0, schemas));
    }
    var props := ObjAt(res.value.0, "properties");
    if props.Err? {
      return Err(props.error);
    }
    var plucked := PluckedOf(props.value, req.value.1);
    if plucked.Err? {
      return Err(plucked.error);
    }
    var ins := InsertLoop(Insertion(props.value, schemas), key, At(schema, "title"), plucked.value, res.value.1);
    if ins.Err? {
      return Err(ins.error);
    }
    var kept := DeleteAll(ins.value.0.props, ins.value.1);
    return Ok((Put(res.value.0, "properties", Obj(kept)), ins.value.0.schemas));
  }

  /** One turn of the loop over `schemas.values()`: a schema that is not a
      dict fails as soon as its title is read. */
  function PluckStep(schemas: Fields, nestedObjects: Fields, i: nat): (r: Result<Fields>)
    requires i < |schemas|
    ensures r.Ok? ==> Keys(r.value) == Keys(schemas)
  {
    assert Keys(schemas)[i] == schemas[i].0;
    match schemas[i].1
    case Obj(s) =>
      var res :- PluckSchema(schemas, nestedObjects, schemas[i].0, s);
      Ok(Put(res.1, schemas[i].0, Obj(res.0)))
    case _ => if nestedObjects == [] then Ok(schemas) else Err(TypeError("indices must be integers"))
  }

  /** `_add_plucked_properties`: the schemas in order, each seeing the
      schemas as the earlier turns left them. */
  function PluckAll(schemas: Fields, nestedObjects: Fields, i: nat): (r: Result<Fields>)
    requires i <= |schemas|
    ensures r.Ok? ==> Keys(r.value) == Keys(schemas)
    decreases |schemas| - i
  {
    if i == |schemas| then Ok(schemas)
    else
      var s1 :- PluckStep(schemas, nestedObjects, i);
      PluckAll(s1, nestedObjects, i + 1)
  }

  /** With no schema configured, a turn stores every schema back unchanged. */
  lemma NothingConfiguredStep(schemas: Fields, i: nat)
    requires UniqueKeys(schemas) && i < |schemas|
    ensures PluckStep(schemas, [], i) == Ok(schemas)
  {
    if schemas[i].1.Obj? {
      GetAtIndex(schemas, i);
      PutSame(schemas, schemas[i].0, schemas[i].1);
    }
  }

  /** With an empty `nested_objects` the pass changes nothing and fails on
      nothing. */
  lemma {:induction false} NothingConfigured(schemas: Fields, i: nat)
    requires UniqueKeys(schemas) && i <= |schemas|
    ensures PluckAll(schemas, [], i) == Ok(schemas)
    decreases |schemas| - i
  {
    if i < |schemas| {
      NothingConfiguredStep(schemas, i);
      NothingConfigured(schemas, i + 1);
    }
  }

  method AddPluckedProperties(schemas: Fields, nestedObjects: Fields) returns (r: Result<Fields>)
    ensures r == PluckAll(schemas, nestedObjects, 0)
  {
    var cur := schemas;
    var i := 0;
    while i < |cur|
      invariant 0 <= i <= |cur| && |cur| == |schemas|
      invariant PluckAll(schemas, nestedObjects, 0) == PluckAll(cur, nestedObjects, i)
    {
      var next: Result<Fields>;
      match cur[i].1 {
        case Obj(s) =>
          var s1 := AddPlucked(cur, nestedObjects, cur[i].0, s);
          if s1.Err? {
            return Err(s1.error);
          }
          next := Ok(Put(s1.value.1, cur[i].0, Obj(s1.value.0)));
        case _ =>
          next := if nestedObjects == [] then Ok(cur) else Err(TypeError("indices must be integers"));
      }
      assert next == PluckStep(cur, nestedObjects, i);
      if next.Err? {
        return Err(next.error);
      }
      cur := next.value;
      i := i + 1;
    }
    return Ok(cur);
  }

  /** Dropping names leaves the other entries as they were. */
  lemma {:induction false} WithoutGet(f: Fields, ds: seq<string>, k: string)
    requires k !in ds
    ensures Get(SchemaPasses.Without(f, ds), k) == Get(f, k)
  {
    if f != [] {
      WithoutGet(f[1..], ds, k);
      if f[0].0 !in ds {
        var rest := SchemaPasses.Without(f[1..], ds);
        assert ([f[0]] + rest)[1..] == rest;
      }
    }
  }

  /** The first loop on a single path whose root `p` has no stored names
      yet: `p` is recorded and the rest of the path stored as `key`. */
  lemma {:induction false} RequestFresh(schema: Fields, props: Fields, path: string, p: string, pf: Fields, key: string)
    requires PathRoot(path) == p && NestedKey(path) == key
    requires Get(schema, "properties") == Some(Obj(props))
    requires Get(props, p) == Some(Obj(pf)) && !Has(pf, "_nested_objects")
    ensures Requests(schema, [], [Str(path)], 0) ==
              Ok((Put(schema, "properties", Obj(Put(props, p, Obj(Put(pf, "_nested_objects", Obj([(key, Obj([]))])))))), [p]))
  {
    assert Index(schema, "properties") == Ok(Obj(props));
    assert InJ(p, Obj(props)) == Ok(true);
    assert Subscript(Obj(props), Str(p)) == Ok(Obj(pf));
    assert ExistingNested(pf) == Ok([]);
    assert (if p in [] then [] else [] + [p]) == [p];
    assert Put([], key, Obj([])) == [(key, Obj([]))];
    var s1 := Put(schema, "properties", Obj(Put(props, p, Obj(Put(pf, "_nested_objects", Obj([(key, Obj([]))]))))));
    assert Request(schema, [], Str(path)) == Ok((s1, [p]));
    assert Requests(s1, [p], [Str(path)], 1) == Ok((s1, [p]));
  }

  /** The second loop on the single plucked property `p`. */
  lemma {:induction false} ResolveOne(schemas: Fields, schema: Fields, props: Fields, p: string, v: Fields, v1: Fields,
                                      m: map<string, Loc>)
    requires Get(schema, "properties") == Some(Obj(props))
    requires Get(props, p) == Some(Obj(v))
    requires ResolveSource(schemas, v) == Ok((v1, m))
    ensures Resolves(schemas, schema, map[], [p], 0) == Ok((Put(schema, "properties", Obj(Put(props, p, Obj(v1)))), map[p := m]))
  {
    assert ObjAt(schema, "properties") == Ok(props);
    assert ObjAt(props, p) == Ok(v);
    var s1 := Put(schema, "properties", Obj(Put(props, p, Obj(v1))));
    assert Resolves(schemas, s1, map[][p := m], [p], 1) == Ok((s1, map[p := m]));
  }

  /** What the single plucked property `p` carries. */
  lemma {:induction false} PluckedOne(props: Fields, p: string, v: Fields, nested: Fields)
    requires Get(props, p) == Some(Obj(v)) && Get(v, "_nested_objects") == Some(Obj(nested))
    ensures PluckedOf(props, [p]) == Ok([(p, nested)])
  {
    assert [p][1..] == [];
    assert ObjAt(props, p) == Ok(v);
    assert ObjAt(v, "_nested_objects") == Ok(nested);
    assert PluckedOf(props, []) == Ok([]);
    assert [(p, nested)] + [] == [(p, nested)];
  }

  /** Adding the single stored value of `p` under `p_a`: the value, with its
      description prefixed, is written back where it came from and stored
      under `p_a`. */
  lemma {:induction false} InsertOne(ins: Insertion, key: string, title: Json, p: string, a: string, val: Fields, d: Json,
                                     m: map<string, Loc>)
    requires Get(val, "description") == Some(d)
    ensures var np1 := Obj(Put(val, "description", Str(PluckedPrefix(title, p) + Format(d))));
            var ins1 := WriteThrough(ins, key, Origin(m, a), np1);
            InsertAll(ins, key, [], title, [(p, [(a, Obj(val))])], map[p := m], 0) ==
              Ok((Insertion(Put(ins1.props, p + "_" + a, np1), ins1.schemas), [p]))
  {
    var nested := [(a, Obj(val))];
    assert nested[1..] == [];
    var np1 := Obj(Put(val, "description", Str(PluckedPrefix(title, p) + Format(d))));
    assert Subscript(Obj(val), Str("description")) == Ok(d);
    var ins1 := WriteThrough(ins, key, Origin(m, a), np1);
    var ins2 := Insertion(Put(ins1.props, p + "_" + a, np1), ins1.schemas);
    assert InsertNested(ins2, key, title, p, [], m) == Ok(ins2);
    assert OriginsOf(map[p := m], p) == m;
    assert InsertNested(ins, key, title, p, nested, m) == Ok(ins2);
    var pl := [(p, nested)];
    assert pl[0].1 != [] && [] + [pl[0].0] == [p];
    assert InsertAll(ins, key, [], title, pl, map[p := m], 0) == InsertAll(ins2, key, [p], title, pl, map[p := m], 1);
  }

  /** The outcome of plucking one path `p.a`: the schema's properties hold
      `np` under `p_a`, no longer hold `p`, and are otherwise as before. */
  ghost predicate PluckedInto(r: Fields, props: Fields, p: string, a: string, np: Json)
  {
    Get(r, "properties").Some? && Get(r, "properties").value.Obj? &&
    var rp := Get(r, "properties").value.fields;
    Get(rp, p + "_" + a) == Some(np) && !Has(rp, p) &&
    forall k :: k != p && k != p + "_" + a ==> Get(rp, k) == Get(props, k)
  }

  /** The schemas after the plucked value is written back to where it came
      from, when that is another schema. */
  function WrittenBack(schemas: Fields, o: Option<Loc>, np: Json): Fields
  {
    if o.Some? then SetProp(schemas, o.value, np) else schemas
  }

  /** A schema stored under `key`, configured with one path `p.a`: it gains
      `p_a`, the value the second loop resolved for `a` with the prefixed
      description, and loses `p`; its other properties stay.  The value is
      the dict found in the schema it came from, so that schema's property
      gets the prefixed description too. */
  lemma {:induction false} SinglePath(schemas: Fields, nestedObjects: Fields, key: string, schema: Fields, title: string, props: Fields, p: string,
                                      pf: Fields, a: string, val: Fields, d: Json, m: map<string, Loc>)
    requires '.' !in p && '.' !in a
    requires Get(nestedObjects, title) == Some(Arr([Str(p + "." + a)]))
    requires Get(schema, "title") == Some(Str(title))
    requires Get(schema, "properties") == Some(Obj(props))
    requires Get(props, p) == Some(Obj(pf)) && !Has(pf, "_nested_objects")
    requires ResolveSource(schemas, Put(pf, "_nested_objects", Obj([(a, Obj([]))]))) ==
               Ok((Put(pf, "_nested_objects", Obj([(a, Obj(val))])), m))
    requires Origin(m, a).None? || Origin(m, a).value.schema != key
    requires Get(val, "description") == Some(d)
    ensures var np := Obj(Put(val, "description", Str(PluckedPrefix(Str(title), p) + Format(d))));
            var r := PluckSchema(schemas, nestedObjects, key, schema);
            r.Ok? && PluckedInto(r.value.0, props, p, a, np) && r.value.1 == WrittenBack(schemas, Origin(m, a), np)
  {
    var v := Obj(Put(pf, "_nested_objects", Obj([(a, Obj([]))])));
    var v1 := Obj(Put(pf, "_nested_objects", Obj([(a, Obj(val))])));
    var np := Obj(Put(val, "description", Str(PluckedPrefix(Str(title), p) + Format(d))));
    SinglePathRun(schemas, nestedObjects, key, schema, title, props, p, pf, a, val, d, m);
    PluckedProps(props, p, a, v, v1, np);
  }

  /** The run of `_add_plucked_properties` on a schema with one path. */
  lemma {:induction false} SinglePathRun(schemas: Fields, nestedObjects: Fields, key: string, schema: Fields, title: string, props: Fields, p: string,
                                         pf: Fields, a: string, val: Fields, d: Json, m: map<string, Loc>)
    requires '.' !in p && '.' !in a
    requires Get(nestedObjects, title) == Some(Arr([Str(p + "." + a)]))
    requires Get(schema, "title") == Some(Str(title))
    requires Get(schema, "properties") == Some(Obj(props))
    requires Get(props, p) == Some(Obj(pf)) && !Has(pf, "_nested_objects")
    requires ResolveSource(schemas, Put(pf, "_nested_objects", Obj([(a, Obj([]))]))) ==
               Ok((Put(pf, "_nested_objects", Obj([(a, Obj(val))])), m))
    requires Origin(m, a).None? || Origin(m, a).value.schema != key
    requires Get(val, "description") == Some(d)
    ensures var v := Obj(Put(pf, "_nested_objects", Obj([(a, Obj([]))])));
            var v1 := Obj(Put(pf, "_nested_objects", Obj([(a, Obj(val))])));
            var np := Obj(Put(val, "description", Str(PluckedPrefix(Str(title), p) + Format(d))));
            var props2 := Put(Put(props, p, v), p, v1);
            var s2 := Put(Put(schema, "properties", Obj(Put(props, p, v))), "properties", Obj(props2));
            PluckSchema(schemas, nestedObjects, key, schema) ==
              Ok((Put(s2, "properties", Obj(SchemaPasses.Without(Put(props2, p + "_" + a, np), [p]))),
                  WrittenBack(schemas, Origin(m, a), np)))
  {
    assert Listed(schema, nestedObjects) == Ok(true);
    assert PathsOf(schema, nestedObjects) == Ok([Str(p + "." + a)]);
    TwoLevelPath(p, a);
    RequestFresh(schema, props, p + "." + a, p, pf, a);
    var v := Put(pf, "_nested_objects", Obj([(a, Obj([]))]));
    var s1 := Put(schema, "properties", Obj(Put(props, p, Obj(v))));
    var v1 := Put(pf, "_nested_objects", Obj([(a, Obj(val))]));
    ResolveOne(schemas, s1, Put(props, p, Obj(v)), p, v, v1, m);
    var props2 := Put(Put(props, p, Obj(v)), p, Obj(v1));
    assert Get(props2, p) == Some(Obj(v1));
    assert Get(v1, "_nested_objects") == Some(Obj([(a, Obj(val))]));
    var s2 := Put(s1, "properties", Obj(props2));
    assert Requests(schema, [], [Str(p + "." + a)], 0) == Ok((s1, [p]));
    assert Resolves(schemas, s1, map[], [p], 0) == Ok((s2, map[p := m]));
    assert ObjAt(s2, "properties") == Ok(props2);
    PluckedOne(props2, p, v1, [(a, Obj(val))]);
    assert At(schema, "title") == Str(title);
    InsertOne(Insertion(props2, schemas), key, Str(title), p, a, val, d, m);
  }

  /** The properties after one path `p.a`: `p_a` holds the plucked value,
      `p` is gone and the rest is as before. */
  lemma {:induction false} PluckedProps(props: Fields, p: string, a: string, v: Json, v1: Json, np: Json)
    ensures var w := SchemaPasses.Without(Put(Put(Put(props, p, v), p, v1), p + "_" + a, np), [p]);
            Get(w, p + "_" + a) == Some(np) && !Has(w, p) &&
            forall k :: k != p && k != p + "_" + a ==> Get(w, k) == Get(props, k)
  {
    var props3 := Put(Put(Put(props, p, v), p, v1), p + "_" + a, np);
    assert p + "_" + a != p by { assert |p + "_" + a| > |p|; }
    WithoutGet(props3, [p], p + "_" + a);
    forall k | k != p && k != p + "_" + a
      ensures Get(SchemaPasses.Without(props3, [p]), k) == Get(props, k)
    {
      WithoutGet(props3, [p], k);
    }
  }

  /** A failing second loop fails the whole schema with the same error. */
  lemma {:induction false} ResolveOneFails(schemas: Fields, schema: Fields, props: Fields, p: string, v: Fields)
    requires Get(schema, "properties") == Some(Obj(props))
    requires Get(props, p) == Some(Obj(v))
    requires ResolveSource(schemas, v).Err?
    ensures Resolves(schemas, schema, map[], [p], 0) == Err(ResolveSource(schemas, v).error)
  {
    assert ObjAt(schema, "properties") == Ok(props);
    assert ObjAt(props, p) == Ok(v);
  }

  /** The sub-schema a reference `S.yaml` names is the schema stored as `S`. */
  lemma {:induction false} RefSchema(schemas: Fields, items: Fields, s: string, sf: Fields)
    requires '.' !in s
    requires Get(items, "$ref") == Some(Str(s + ".yaml"))
    requires Get(schemas, s) == Some(Obj(sf))
    ensures RefName(Obj(items)) == s
    ensures SubSchema(schemas, Obj(items)) == Ok(Obj(sf))
  {
    YamlKey(s);
    assert Subscript(Obj(items), Str("$ref")) == Ok(Str(s + ".yaml"));
    assert RefKey(Str(s + ".yaml")) == Ok(s);
  }

  /** A list property `p` whose items reference `S.yaml`: the stored name
      `a` (one part) plucks property `a` of schema `S`, and it is recorded
      that the value is that very property. */
  lemma {:induction false} ListResolve(schemas: Fields, pf: Fields, items: Fields, s: string, sf: Fields, sp: Fields,
                    a: string, val: Fields)
    requires '.' !in s && '_' !in a
    requires Get(pf, "items") == Some(Obj(items)) && Get(items, "$ref") == Some(Str(s + ".yaml"))
    requires Get(schemas, s) == Some(Obj(sf))
    requires Has(sf, "title") && Get(sf, "title") != Some(Str("Extension"))
    requires Get(sf, "properties") == Some(Obj(sp)) && Get(sp, a) == Some(Obj(val))
    requires !Has(val, "$ref") && !Has(val, "items")
    ensures ResolveSource(schemas, Put(pf, "_nested_objects", Obj([(a, Obj([]))]))) ==
              Ok((Put(pf, "_nested_objects", Obj([(a, Obj(val))])), map[a := Loc(s, a)]))
  {
    var v := Put(pf, "_nested_objects", Obj([(a, Obj([]))]));
    var nested := [(a, Obj([]))];
    assert At(v, "items") == Obj(items);
    assert ObjAt(v, "_nested_objects") == Ok(nested);
    assert Keys(nested) == [a];
    RefSchema(schemas, items, s, sf);
    NoCharSplit(a, '_');
    assert Split(a, "_") == [a];
    assert GetOr(nested, a, Obj([])) == Obj([]);
    WalkOne(schemas, sf, s, sp, a, val);
    assert Put(nested, a, Obj(val)) == [(a, Obj(val))];
    assert Remember(map[], a, Some(Loc(s, a))) == map[a := Loc(s, a)];
    assert ListPaths(schemas, Obj(items), nested, map[], [a]) == Ok(([(a, Obj(val))], map[a := Loc(s, a)]));
    PutTwice(pf, "_nested_objects", Obj(nested), Obj([(a, Obj(val))]));
  }

  /** One walk step in a schema that is not `Extension`, to a property that
      references nothing further. */
  lemma {:induction false} WalkOne(schemas: Fields, sf: Fields, s: string, sp: Fields, a: string, val: Fields)
    requires Has(sf, "title") && Get(sf, "title") != Some(Str("Extension"))
    requires Get(sf, "properties") == Some(Obj(sp)) && Get(sp, a) == Some(Obj(val))
    requires !Has(val, "$ref") && !Has(val, "items")
    ensures WalkList(schemas, Obj(sf), s, [a], Stored(Obj([]), None)) == Ok(Stored(Obj(val), Some(Loc(s, a))))
  {
    assert Subscript(Obj(sf), Str("title")) == Ok(At(sf, "title"));
    assert Subscript(Obj(sf), Str("properties")) == Ok(Obj(sp));
    assert Subscript(Obj(sp), Str(a)) == Ok(Obj(val));
    assert NextSchema(schemas, Obj(val), s, Obj(sf)) == Ok((s, Obj(sf)));
    assert [a][1..] == [];
  }

  /** A scalar property `p` referencing `S.yaml`: the stored name `a` plucks
      property `a` of schema `S`, and it is recorded that the value is that
      very property. */
  lemma {:induction false} ScalarResolve(schemas: Fields, pf: Fields, s: string, sf: Fields, sp: Fields, a: string, val: Fields)
    requires '.' !in s
    requires !Has(pf, "items") && Get(pf, "$ref") == Some(Str(s + ".yaml"))
    requires Get(schemas, s) == Some(Obj(sf))
    requires Get(sf, "properties") == Some(Obj(sp)) && Get(sp, a) == Some(Obj(val))
    requires !Has(val, "$ref") && !Has(val, "items")
    ensures ResolveSource(schemas, Put(pf, "_nested_objects", Obj([(a, Obj([]))]))) ==
              Ok((Put(pf, "_nested_objects", Obj([(a, Obj(val))])), map[a := Loc(s, a)]))
  {
    var v := Put(pf, "_nested_objects", Obj([(a, Obj([]))]));
    var nested := [(a, Obj([]))];
    assert !Has(v, "items") && Get(v, "$ref") == Get(pf, "$ref");
    RefSchema(schemas, v, s, sf);
    assert ObjAt(v, "_nested_objects") == Ok(nested);
    assert Keys(nested) == [a];
    ScalarStep(schemas, sf, s, sp, a, val, nested);
    PutTwice(pf, "_nested_objects", Obj(nested), Obj([(a, Obj(val))]));
  }

  /** The scalar walk over the single stored name `a`. */
  lemma {:induction false} ScalarStep(schemas: Fields, sf: Fields, s: string, sp: Fields, a: string, val: Fields, nested: Fields)
    requires Get(sf, "properties") == Some(Obj(sp)) && Get(sp, a) == Some(Obj(val))
    requires !Has(val, "$ref") && !Has(val, "items")
    requires nested == [(a, Obj([]))]
    ensures ScalarPaths(schemas, Obj(sf), s, nested, map[], [a]) == Ok(([(a, Obj(val))], map[a := Loc(s, a)]))
  {
    assert Subscript(Obj(sf), Str("properties")) == Ok(Obj(sp));
    assert Subscript(Obj(sp), Str(a)) == Ok(Obj(val));
    assert NextSchema(schemas, Obj(val), s, Obj(sf)) == Ok((s, Obj(sf)));
    assert [a][1..] == [];
    assert Put(nested, a, Obj(val)) == [(a, Obj(val))];
  }

  /** A list property whose items reference an `Extension` schema: every
      stored name plucks the fixed string property, a fresh dict. */
  lemma {:induction false} ExtensionResolve(schemas: Fields, pf: Fields, items: Fields, s: string, sf: Fields, a: string)
    requires '.' !in s && '_' !in a
    requires Get(pf, "items") == Some(Obj(items)) && Get(items, "$ref") == Some(Str(s + ".yaml"))
    requires Get(schemas, s) == Some(Obj(sf)) && Get(sf, "title") == Some(Str("Extension"))
    ensures ResolveSource(schemas, Put(pf, "_nested_objects", Obj([(a, Obj([]))]))) ==
              Ok((Put(pf, "_nested_objects", Obj([(a, ExtensionValue())])), map[]))
  {
    var v := Put(pf, "_nested_objects", Obj([(a, Obj([]))]));
    var nested := [(a, Obj([]))];
    assert At(v, "items") == Obj(items);
    assert ObjAt(v, "_nested_objects") == Ok(nested);
    assert Keys(nested) == [a];
    RefSchema(schemas, items, s, sf);
    NoCharSplit(a, '_');
    assert Split(a, "_") == [a];
    assert Subscript(Obj(sf), Str("title")) == Ok(Str("Extension"));
    assert WalkList(schemas, Obj(sf), s, [a], Stored(Obj([]), None)) == Ok(Stored(ExtensionValue(), None));
    assert Put(nested, a, ExtensionValue()) == [(a, ExtensionValue())];
    assert Remember(map[], a, None) == map[];
    assert ListPaths(schemas, Obj(items), nested, map[], [a]) == Ok(([(a, ExtensionValue())], map[]));
    PutTwice(pf, "_nested_objects", Obj(nested), Obj([(a, ExtensionValue())]));
  }

  /** The configured path `p.a` on a list property plucks property `a` of
      the item schema `S` into `p_a`, with its description prefixed by where
      it came from, and drops `p`.  The plucked value is `S`'s own property
      dict, so `S.a` now carries the prefixed description as well. */
  lemma {:induction false} ListPluck(schemas: Fields, nestedObjects: Fields, key: string, schema: Fields, title: string, props: Fields, p: string,
                                     pf: Fields, items: Fields, s: string, sf: Fields, sp: Fields, a: string, val: Fields, d: Json)
    requires '.' !in p && '.' !in a && '_' !in a && '.' !in s && s != key
    requires Get(nestedObjects, title) == Some(Arr([Str(p + "." + a)]))
    requires Get(schema, "title") == Some(Str(title))
    requires Get(schema, "properties") == Some(Obj(props))
    requires Get(props, p) == Some(Obj(pf)) && !Has(pf, "_nested_objects")
    requires Get(pf, "items") == Some(Obj(items)) && Get(items, "$ref") == Some(Str(s + ".yaml"))
    requires Get(schemas, s) == Some(Obj(sf))
    requires Has(sf, "title") && Get(sf, "title") != Some(Str("Extension"))
    requires Get(sf, "properties") == Some(Obj(sp)) && Get(sp, a) == Some(Obj(val))
    requires !Has(val, "$ref") && !Has(val, "items") && Get(val, "description") == Some(d)
    ensures var np := Obj(Put(val, "description", Str(PluckedPrefix(Str(title), p) + Format(d))));
            var r := PluckSchema(schemas, nestedObjects, key, schema);
            r.Ok? && PluckedInto(r.value.0, props, p, a, np) && r.value.1 == SetProp(schemas, Loc(s, a), np)
  {
    ListResolve(schemas, pf, items, s, sf, sp, a, val);
    SinglePath(schemas, nestedObjects, key, schema, title, props, p, pf, a, val, d, map[a := Loc(s, a)]);
  }

  /** The same for a scalar property referencing `S.yaml`. */
  lemma {:induction false} ScalarPluck(schemas: Fields, nestedObjects: Fields, key: string, schema: Fields, title: string, props: Fields, p: string,
                                       pf: Fields, s: string, sf: Fields, sp: Fields, a: string, val: Fields, d: Json)
    requires '.' !in p && '.' !in a && '.' !in s && s != key
    requires Get(nestedObjects, title) == Some(Arr([Str(p + "." + a)]))
    requires Get(schema, "title") == Some(Str(title))
    requires Get(schema, "properties") == Some(Obj(props))
    requires Get(props, p) == Some(Obj(pf)) && !Has(pf, "_nested_objects")
    requires !Has(pf, "items") && Get(pf, "$ref") == Some(Str(s + ".yaml"))
    requires Get(schemas, s) == Some(Obj(sf))
    requires Get(sf, "properties") == Some(Obj(sp)) && Get(sp, a) == Some(Obj(val))
    requires !Has(val, "$ref") && !Has(val, "items") && Get(val, "description") == Some(d)
    ensures var np := Obj(Put(val, "description", Str(PluckedPrefix(Str(title), p) + Format(d))));
            var r := PluckSchema(schemas, nestedObjects, key, schema);
            r.Ok? && PluckedInto(r.value.0, props, p, a, np) && r.value.1 == SetProp(schemas, Loc(s, a), np)
  {
    ScalarResolve(schemas, pf, s, sf, sp, a, val);
    SinglePath(schemas, nestedObjects, key, schema, title, props, p, pf, a, val, d, map[a := Loc(s, a)]);
  }

  /** Through an `Extension` item schema the plucked property is the fixed
      string property, described as plucked; it is a fresh dict, so no
      other schema changes. */
  lemma {:induction false} ExtensionPluck(schemas: Fields, nestedObjects: Fields, key: string, schema: Fields, title: string, props: Fields, p: string,
                                          pf: Fields, items: Fields, s: string, sf: Fields, a: string)
    requires '.' !in p && '.' !in a && '_' !in a && '.' !in s
    requires Get(nestedObjects, title) == Some(Arr([Str(p + "." + a)]))
    requires Get(schema, "title") == Some(Str(title))
    requires Get(schema, "properties") == Some(Obj(props))
    requires Get(props, p) == Some(Obj(pf)) && !Has(pf, "_nested_objects")
    requires Get(pf, "items") == Some(Obj(items)) && Get(items, "$ref") == Some(Str(s + ".yaml"))
    requires Get(schemas, s) == Some(Obj(sf)) && Get(sf, "title") == Some(Str("Extension"))
    ensures var r := PluckSchema(schemas, nestedObjects, key, schema);
            r.Ok? && r.value.1 == schemas &&
            PluckedInto(r.value.0, props, p, a,
                        Obj([("description", Str(PluckedPrefix(Str(title), p) + "Value of extension")),
                             ("type", Str("string"))]))
  {
    ExtensionResolve(schemas, pf, items, s, sf, a);
    ExtensionDescribed(PluckedPrefix(Str(title), p));
    SinglePath(schemas, nestedObjects, key, schema, title, props, p, pf, a, ExtensionValue().fields, Str("Value of extension"), map[]);
  }

  /** Writing a property of schema `S` replaces that one property of `S`. */
  lemma SetPropAt(schemas: Fields, loc: Loc, sf: Fields, sp: Fields, v: Json)
    requires Get(schemas, loc.schema) == Some(Obj(sf)) && Get(sf, "properties") == Some(Obj(sp))
    ensures Get(SetProp(schemas, loc, v), loc.schema) == Some(Obj(Put(sf, "properties", Obj(Put(sp, loc.name, v)))))
  {
  }

  /** The turn of the schema stored under `key`, configured with the path
      `p.a` on a list property whose items reference `S.yaml`: the schema
      gains `p_a` and loses `p`, and `S.a` itself is now the plucked dict,
      its description prefixed; every other schema is as it was. */
  lemma {:induction false} ListPluckStep(schemas: Fields, nestedObjects: Fields, i: nat, key: string, schema: Fields,
                                         title: string, props: Fields, p: string, pf: Fields, items: Fields, s: string,
                                         sf: Fields, sp: Fields, a: string, val: Fields, d: Json)
    returns (t: Fields, x: Fields)
    requires UniqueKeys(schemas) && i < |schemas| && schemas[i] == (key, Obj(schema))
    requires Get(nestedObjects, title) == Some(Arr([Str(p + "." + a)]))
    requires '.' !in p && '.' !in a && '_' !in a && '.' !in s && s != key
    requires Get(schema, "title") == Some(Str(title))
    requires Get(schema, "properties") == Some(Obj(props))
    requires Get(props, p) == Some(Obj(pf)) && !Has(pf, "_nested_objects")
    requires Get(pf, "items") == Some(Obj(items)) && Get(items, "$ref") == Some(Str(s + ".yaml"))
    requires Get(schemas, s) == Some(Obj(sf))
    requires Has(sf, "title") && Get(sf, "title") != Some(Str("Extension"))
    requires Get(sf, "properties") == Some(Obj(sp)) && Get(sp, a) == Some(Obj(val))
    requires !Has(val, "$ref") && !Has(val, "items") && Get(val, "description") == Some(d)
    ensures PluckStep(schemas, nestedObjects, i) == Ok(t)
    ensures var np := Obj(Put(val, "description", Str(PluckedPrefix(Str(title), p) + Format(d))));
            PluckedInto(x, props, p, a, np) &&
            UniqueKeys(t) && Keys(t) == Keys(schemas) && Get(t, key) == Some(Obj(x)) &&
            Get(t, s) == Some(Obj(Put(sf, "properties", Obj(Put(sp, a, np))))) &&
            forall k :: k != key && k != s ==> Get(t, k) == Get(schemas, k)
  {
    var np := Obj(Put(val, "description", Str(PluckedPrefix(Str(title), p) + Format(d))));
    ListPluck(schemas, nestedObjects, key, schema, title, props, p, pf, items, s, sf, sp, a, val, d);
    var res := PluckSchema(schemas, nestedObjects, key, schema).value;
    StepOf(schemas, nestedObjects, i, res);
    assert Has(schemas, key) by { assert Keys(schemas)[i] == key; }
    StepFacts(schemas, key, Loc(s, a), sf, sp, np, res.0);
    t, x := Put(res.1, key, Obj(res.0)), res.0;
  }

  /** A turn on a dict schema stores the schema as its plucking left it,
      over the schemas as its writes left them. */
  lemma StepOf(schemas: Fields, nestedObjects: Fields, i: nat, res: (Fields, Fields))
    requires i < |schemas| && schemas[i].1.Obj?
    requires PluckSchema(schemas, nestedObjects, schemas[i].0, schemas[i].1.fields) == Ok(res)
    ensures PluckStep(schemas, nestedObjects, i) == Ok(Put(res.1, schemas[i].0, Obj(res.0)))
  {
  }

  /** The schemas after a turn that wrote one property of another schema. */
  lemma {:induction false} StepFacts(schemas: Fields, key: string, loc: Loc, sf: Fields, sp: Fields, np: Json, x: Fields)
    requires UniqueKeys(schemas) && Has(schemas, key) && loc.schema != key
    requires Get(schemas, loc.schema) == Some(Obj(sf)) && Get(sf, "properties") == Some(Obj(sp))
    ensures var t := Put(SetProp(schemas, loc, np), key, Obj(x));
            UniqueKeys(t) && Keys(t) == Keys(schemas) && Get(t, key) == Some(Obj(x)) &&
            Get(t, loc.schema) == Some(Obj(Put(sf, "properties", Obj(Put(sp, loc.name, np))))) &&
            forall k :: k != key && k != loc.schema ==> Get(t, k) == Get(schemas, k)
  {
    var w := SetProp(schemas, loc, np);
    SetPropAt(schemas, loc, sf, sp, np);
    SameKeysUnique(schemas, w);
  }

  /** A turn that plucks `S.a` after an earlier turn (of the schema titled
      `tA`, through its property `pA`) already rewrote it: the new prefix
      goes in front of the old one, on `S.a` as on the new `pC_a`. */
  lemma {:induction false} PluckedAgain(schemas: Fields, nestedObjects: Fields, j: nat, kC: string, schemaC: Fields,
                                        tC: string, propsC: Fields, pC: string, pfC: Fields, itemsC: Fields, s: string,
                                        sf: Fields, sp: Fields, a: string, val: Fields, tA: string, pA: string, d: Json)
    returns (t: Fields, x: Fields)
    requires UniqueKeys(schemas) && j < |schemas| && schemas[j] == (kC, Obj(schemaC))
    requires Get(nestedObjects, tC) == Some(Arr([Str(pC + "." + a)]))
    requires '.' !in pC && '.' !in a && '_' !in a && '.' !in s && s != kC
    requires Get(schemaC, "title") == Some(Str(tC))
    requires Get(schemaC, "properties") == Some(Obj(propsC))
    requires Get(propsC, pC) == Some(Obj(pfC)) && !Has(pfC, "_nested_objects")
    requires Get(pfC, "items") == Some(Obj(itemsC)) && Get(itemsC, "$ref") == Some(Str(s + ".yaml"))
    requires Get(schemas, s) == Some(Obj(sf))
    requires Has(sf, "title") && Get(sf, "title") != Some(Str("Extension"))
    requires Get(sf, "properties") == Some(Obj(sp)) && Get(sp, a) == Some(Obj(val))
    requires !Has(val, "$ref") && !Has(val, "items")
    requires Get(val, "description") == Some(Str(PluckedPrefix(Str(tA), pA) + Format(d)))
    ensures PluckStep(schemas, nestedObjects, j) == Ok(t)
    ensures var np := Obj(Put(val, "description", Str(PluckedPrefix(Str(tC), pC) + PluckedPrefix(Str(tA), pA) + Format(d))));
            Get(t, s) == Some(Obj(Put(sf, "properties", Obj(Put(sp, a, np))))) &&
            Get(t, kC) == Some(Obj(x)) && PluckedInto(x, propsC, pC, a, np)
  {
    var dA := Str(PluckedPrefix(Str(tA), pA) + Format(d));
    t, x := ListPluckStep(schemas, nestedObjects, j, kC, schemaC, tC, propsC, pC, pfC, itemsC, s, sf, sp, a, val, dA);
    Stacked(PluckedPrefix(Str(tC), pC), PluckedPrefix(Str(tA), pA), Format(d));
  }

  /** An entry whose key still finds the same value is still at its
      position. */
  lemma {:induction false} SameIndex(f: Fields, g: Fields, j: nat)
    requires UniqueKeys(f) && UniqueKeys(g) && Keys(g) == Keys(f) && j < |f|
    requires Get(g, f[j].0) == Get(f, f[j].0)
    ensures g[j] == f[j]
  {
    assert Keys(g)[j] == Keys(f)[j];
    GetAtIndex(f, j);
    GetAtIndex(g, j);
  }

  /** The property `a` of `S` after its description was rewritten is read
      the same way as before, with the new description. */
  lemma ReadAgain(sf: Fields, sp: Fields, a: string, val: Fields, dA: Json)
    requires Get(sf, "properties") == Some(Obj(sp)) && Get(sp, a) == Some(Obj(val))
    requires !Has(val, "$ref") && !Has(val, "items")
    ensures var valA := Put(val, "description", dA);
            var sp1 := Put(sp, a, Obj(valA));
            var sf1 := Put(sf, "properties", Obj(sp1));
            Get(sf1, "title") == Get(sf, "title") && Get(sf1, "properties") == Some(Obj(sp1)) &&
            Get(sp1, a) == Some(Obj(valA)) && !Has(valA, "$ref") && !Has(valA, "items") &&
            Get(valA, "description") == Some(dA)
  {
    var valA := Put(val, "description", dA);
    assert Get(valA, "$ref") == Get(val, "$ref") && Get(valA, "items") == Get(val, "items");
  }

  /** A prefix put in front of a description that already has one. */
  lemma Stacked(x: string, y: string, z: string)
    ensures x + Format(Str(y + z)) == x + y + z
  {
  }

  /** The fixed string property with its description prefixed. */
  lemma {:induction false} ExtensionDescribed(prefix: string)
    ensures Get(ExtensionValue().fields, "description") == Some(Str("Value of extension"))
    ensures Put(ExtensionValue().fields, "description", Str(prefix + Format(Str("Value of extension")))) ==
              [("description", Str(prefix + "Value of extension")), ("type", Str("string"))]
  {
    var val := ExtensionValue().fields;
    assert val[1..] == [("type", Str("string"))];
  }

  /** `assert k in schema['properties']`: a configured path whose root the
      schema lacks fails the schema with the root as the message. */
  lemma {:induction false} RootMissing(schemas: Fields, key: string, schema: Fields, title: string, props: Fields, path: string, rest: seq<Json>)
    requires Get(schema, "title") == Some(Str(title))
    requires Get(schema, "properties") == Some(Obj(props))
    requires !Has(props, PathRoot(path))
    ensures PluckSchema(schemas, [(title, Arr([Str(path)] + rest))], key, schema) == Err(AssertionError(PathRoot(path)))
  {
    var nestedObjects := [(title, Arr([Str(path)] + rest))];
    assert Listed(schema, nestedObjects) == Ok(true);
    assert PathsOf(schema, nestedObjects) == Ok([Str(path)] + rest);
    assert Request(schema, [], Str(path)) == Err(AssertionError(PathRoot(path)));
  }

  /** The scalar walk looks a stored name up whole: a name the sub-schema
      lacks is a KeyError. */
  lemma {:induction false} ScalarWholeName(schemas: Fields, pf: Fields, s: string, sf: Fields, sp: Fields, key: string)
    requires '.' !in s
    requires !Has(pf, "items") && Get(pf, "$ref") == Some(Str(s + ".yaml"))
    requires Get(schemas, s) == Some(Obj(sf)) && Get(sf, "properties") == Some(Obj(sp))
    requires !Has(sp, key)
    ensures ResolveSource(schemas, Put(pf, "_nested_objects", Obj([(key, Obj([]))]))) == Err(KeyError(key))
  {
    var v := Put(pf, "_nested_objects", Obj([(key, Obj([]))]));
    assert Get(v, "$ref") == Some(Str(s + ".yaml")) && !Has(v, "items");
    RefSchema(schemas, v, s, sf);
    assert ObjAt(v, "_nested_objects") == Ok([(key, Obj([]))]);
    assert Keys([(key, Obj([]))]) == [key];
    assert Subscript(Obj(sf), Str("properties")) == Ok(Obj(sp));
    assert Subscript(Obj(sp), Str(key)) == Err(KeyError(key));
  }

  /** A scalar property walks its stored names whole, but the first loop
      stored `p.a.b` as `a_b`: the walk then asks the sub-schema for a
      property named `a_b` and fails with a KeyError, so a three-level path
      through a scalar reference can never be plucked. */
  lemma {:induction false} ScalarMultiLevelFails(schemas: Fields, key: string, schema: Fields, title: string, props: Fields, p: string,
                              pf: Fields, s: string, sf: Fields, sp: Fields, a: string, b: string)
    requires '.' !in p && '.' !in a && '.' !in b && '.' !in s
    requires Get(schema, "title") == Some(Str(title))
    requires Get(schema, "properties") == Some(Obj(props))
    requires Get(props, p) == Some(Obj(pf)) && !Has(pf, "_nested_objects")
    requires !Has(pf, "items") && Get(pf, "$ref") == Some(Str(s + ".yaml"))
    requires Get(schemas, s) == Some(Obj(sf)) && Get(sf, "properties") == Some(Obj(sp))
    requires !Has(sp, a + "_" + b)
    ensures PluckSchema(schemas, [(title, Arr([Str(p + "." + a + "." + b)]))], key, schema) == Err(KeyError(a + "_" + b))
  {
    var path := p + "." + a + "." + b;
    var key := a + "_" + b;
    var nestedObjects := [(title, Arr([Str(path)]))];
    ThreeLevelPath(p, a, b);
    RequestFresh(schema, props, path, p, pf, key);
    var v := Put(pf, "_nested_objects", Obj([(key, Obj([]))]));
    var s1 := Put(schema, "properties", Obj(Put(props, p, Obj(v))));
    ScalarWholeName(schemas, pf, s, sf, sp, key);
    ResolveOneFails(schemas, s1, Put(props, p, Obj(v)), p, v);
    assert Listed(schema, nestedObjects) == Ok(true);
    assert PathsOf(schema, nestedObjects) == Ok([Str(path)]);
  }
}
