// The per-schema passes of `_simplify_schemas` that trim, rename and
// decorate a schema's properties (iceberg_tools/schema/gen3.py; the same
// functions are repeated in iceberg_tools/schema/simplified.py).  Each pass
// is a function on one schema, and a method with the source's loop where
// the source loops over a schema's properties or names.

module SchemaPasses {

  import opened Text
  import opened Json
  import opened SchemaClassify
  import Inflection

  /** `schema['properties']` iterated with `.items()`: KeyError when it is
      missing, AttributeError when it is not a dict. */
  function PropsAt(schema: Fields): (r: Result<Fields>)
    ensures r.Ok? <==> Get(schema, "properties").Some? && Get(schema, "properties").value.Obj?
    ensures r.Ok? ==> Get(schema, "properties") == Some(Obj(r.value))
    ensures !Has(schema, "properties") ==> r == Err(KeyError("properties"))
  {
    match Get(schema, "properties")
    case None => Err(KeyError("properties"))
    case Some(Obj(p)) => Ok(p)
    case Some(_) => Err(AttributeError("items"))
  }

  /** No name occurs twice. */
  predicate Distinct<T(==)>(xs: seq<T>)
  {
    forall i, j :: 0 <= i < j < |xs| ==> xs[i] != xs[j]
  }

  lemma {:induction false} UniqueKeysDistinct(f: Fields)
    requires UniqueKeys(f)
    ensures Distinct(Keys(f))
  {
    if f != [] {
      UniqueKeysDistinct(f[1..]);
      var ks := Keys(f);
      assert ks[1..] == Keys(f[1..]);
      assert f[0].0 !in ks[1..];
      forall i, j | 0 <= i < j < |ks| ensures ks[i] != ks[j] {
        if i == 0 {
          assert ks[j] == ks[1..][j - 1];
        } else {
          assert ks[i] == ks[1..][i - 1] && ks[j] == ks[1..][j - 1];
        }
      }
    }
  }

  // ---------------------------------------------------------------------
  // `_remove_ignored_properties`

  /** The property names `_remove_ignored_properties` deletes: the configured
      ones and every name starting with `_`. */
  predicate IsIgnored(ignored: seq<string>, name: string)
  {
    name in ignored || StartsWith(name, "_")
  }

  /** The reference definition: the properties whose names are not ignored,
      in their order. */
  function KeptProps(ignored: seq<string>, props: Fields): (r: Fields)
    ensures forall kv :: kv in r <==> kv in props && !IsIgnored(ignored, kv.0)
    ensures forall k :: Has(r, k) <==> Has(props, k) && !IsIgnored(ignored, k)
    ensures forall k :: !IsIgnored(ignored, k) ==> Get(r, k) == Get(props, k)
    ensures UniqueKeys(props) ==> UniqueKeys(r)
  {
    if props == [] then []
    else
      var rest := KeptProps(ignored, props[1..]);
      assert Keys(props) == [props[0].0] + Keys(props[1..]);
      if IsIgnored(ignored, props[0].0) then rest
      else
        assert ([props[0]] + rest)[1..] == rest;
        assert Keys([props[0]] + rest) == [props[0].0] + Keys(rest);
        [props[0]] + rest
  }

  /** `_remove_ignored_properties` on one schema. */
  function RemoveIgnored(ignored: seq<string>, schema: Fields): (r: Result<Fields>)
    ensures r.Ok? <==> PropsAt(schema).Ok?
    ensures r.Ok? ==> r.value == WithProps(schema, KeptProps(ignored, PropsAt(schema).value))
  {
    var props :- PropsAt(schema);
    Ok(WithProps(schema, KeptProps(ignored, props)))
  }

  /** The names of `ks` that are ignored, in order (what the first loop collects). */
  function IgnoredNames(ignored: seq<string>, ks: seq<string>): (r: seq<string>)
    ensures forall x :: x in r <==> x in ks && IsIgnored(ignored, x)
  {
    if ks == [] then []
    else
      var init := ks[..|ks| - 1];
      var last := ks[|ks| - 1];
      assert ks == init + [last];
      IgnoredNames(ignored, init) + (if IsIgnored(ignored, last) then [last] else [])
  }

  lemma {:induction false} IgnoredNamesDistinct(ignored: seq<string>, ks: seq<string>)
    requires Distinct(ks)
    ensures Distinct(IgnoredNames(ignored, ks))
  {
    if ks != [] {
      var init := ks[..|ks| - 1];
      var last := ks[|ks| - 1];
      assert Distinct(init);
      IgnoredNamesDistinct(ignored, init);
      assert last !in init by {
        forall i | 0 <= i < |init| ensures init[i] != last {
          assert init[i] == ks[i];
        }
      }
    }
  }

  /** The pairs of `f` whose keys are not among `ds`. */
  function Without(f: Fields, ds: seq<string>): (r: Fields)
    ensures forall k :: Has(r, k) <==> Has(f, k) && k !in ds
  {
    if f == [] then []
    else
      var rest := Without(f[1..], ds);
      assert Keys(f) == [f[0].0] + Keys(f[1..]);
      if f[0].0 in ds then rest
      else
        assert Keys([f[0]] + rest) == [f[0].0] + Keys(rest);
        assert forall k :: Has([f[0]] + rest, k) <==> k == f[0].0 || Has(rest, k);
        [f[0]] + rest
  }

  lemma {:induction false} WithoutNothing(f: Fields)
    ensures Without(f, []) == f
  {
    if f != [] {
      WithoutNothing(f[1..]);
    }
  }

  /** Deleting one more key is dropping one more name. */
  lemma {:induction false} DelWithout(f: Fields, ds: seq<string>, k: string)
    ensures Del(Without(f, ds), k) == Without(f, ds + [k])
  {
    if f != [] {
      DelWithout(f[1..], ds, k);
      if f[0].0 !in ds {
        var rest := Without(f[1..], ds);
        assert ([f[0]] + rest)[1..] == rest;
      }
    }
  }

  /** Dropping exactly the ignored names keeps what `KeptProps` keeps. */
  lemma {:induction false} WithoutKept(ignored: seq<string>, f: Fields, ds: seq<string>)
    requires forall kv :: kv in f ==> (kv.0 in ds <==> IsIgnored(ignored, kv.0))
    ensures Without(f, ds) == KeptProps(ignored, f)
  {
    if f != [] {
      assert f[0] in f;
      assert forall kv :: kv in f[1..] ==> kv in f;
      WithoutKept(ignored, f[1..], ds);
    }
  }

  /** The first loop of `_remove_ignored_properties`: the ignored property
      names, in order. */
  method CollectIgnored(ignored: seq<string>, props: Fields) returns (toDelete: seq<string>)
    ensures toDelete == IgnoredNames(ignored, Keys(props))
  {
    var ks := Keys(props);
    toDelete := [];
    var i := 0;
    while i < |props|
      invariant 0 <= i <= |props|
      invariant toDelete == IgnoredNames(ignored, ks[..i])
    {
      assert ks[..i + 1][..i] == ks[..i];
      if IsIgnored(ignored, props[i].0) {
        toDelete := toDelete + [props[i].0];
      }
      i := i + 1;
    }
    TakeAll(ks);
  }

  /** The second loop: `del props[name]` for each collected name.  The names
      are distinct keys of `props`, so no deletion raises. */
  method DeleteNames(props: Fields, names: seq<string>) returns (out: Fields)
    requires Distinct(names) && forall x :: x in names ==> Has(props, x)
    ensures out == Without(props, names)
  {
    out := props;
    var j := 0;
    WithoutNothing(props);
    while j < |names|
      invariant 0 <= j <= |names|
      invariant out == Without(props, names[..j])
    {
      DeleteStep(props, names, j);
      out := Del(out, names[j]);
      j := j + 1;
    }
    TakeAll(names);
  }

  /** One deletion: the name is still there, and deleting it drops one more
      name. */
  lemma DeleteStep(props: Fields, names: seq<string>, j: nat)
    requires Distinct(names) && forall x :: x in names ==> Has(props, x)
    requires j < |names|
    ensures Has(Without(props, names[..j]), names[j])
    ensures Del(Without(props, names[..j]), names[j]) == Without(props, names[..j + 1])
  {
    assert names[j] in names;
    assert names[j] !in names[..j];
    DelWithout(props, names[..j], names[j]);
    assert names[..j + 1] == names[..j] + [names[j]];
  }

  /** `_remove_ignored_properties` on one schema, with its two loops: the
      names to delete are collected first, then deleted one by one. */
  method RemoveIgnoredProperties(ignored: seq<string>, schema: Fields) returns (r: Result<Fields>)
    requires PropsUnique(schema)
    ensures r == RemoveIgnored(ignored, schema)
  {
    var props :- PropsAt(schema);
    var toDelete := CollectIgnored(ignored, props);
    IgnoredDeletable(ignored, props);
    var out := DeleteNames(props, toDelete);
    WithoutIgnored(ignored, props);
    r := Ok(WithProps(schema, out));
  }

  /** The collected names are distinct keys of the properties. */
  lemma IgnoredDeletable(ignored: seq<string>, props: Fields)
    requires UniqueKeys(props)
    ensures Distinct(IgnoredNames(ignored, Keys(props)))
    ensures forall x :: x in IgnoredNames(ignored, Keys(props)) ==> Has(props, x)
  {
    UniqueKeysDistinct(props);
    IgnoredNamesDistinct(ignored, Keys(props));
  }

  /** Deleting the collected names keeps what `KeptProps` keeps. */
  lemma WithoutIgnored(ignored: seq<string>, props: Fields)
    ensures Without(props, IgnoredNames(ignored, Keys(props))) == KeptProps(ignored, props)
  {
    forall kv | kv in props ensures kv.0 in IgnoredNames(ignored, Keys(props)) <==> IsIgnored(ignored, kv.0) {
      InHas(props, kv);
    }
    WithoutKept(ignored, props, IgnoredNames(ignored, Keys(props)));
  }

  // ---------------------------------------------------------------------
  // `_remove_required_flag`

  /** `xs.remove(x)`: the first equal item goes; ValueError when there is none. */
  function RemoveFirst(xs: seq<Json>, x: Json): (r: Result<seq<Json>>)
    ensures r.Ok? <==> x in xs
    ensures r.Err? ==> r.error.ValueError?
  {
    if xs == [] then Err(ValueError("list.remove(x): x not in list"))
    else if xs[0] == x then Ok(xs[1..])
    else
      var rest :- RemoveFirst(xs[1..], x);
      Ok([xs[0]] + rest)
  }

  /** Removing the first occurrence of an item that `a` does not hold. */
  lemma {:induction false} RemoveFirstAt(a: seq<Json>, x: Json, b: seq<Json>)
    requires x !in a
    ensures RemoveFirst(a + [x] + b, x) == Ok(a + b)
  {
    if a == [] {
      assert a + [x] + b == [x] + b;
      assert ([x] + b)[1..] == b;
      assert a + b == b;
    } else {
      var c := a + [x] + b;
      assert c != [] && c[0] == a[0] && c[0] != x && c[1..] == a[1..] + [x] + b by {
        assert a[0] in a;
      }
      RemoveFirstAt(a[1..], x, b);
      assert [a[0]] + (a[1..] + b) == a + b by {
        assert a == [a[0]] + a[1..];
      }
    }
  }

  /** `schema['required'].remove(name)`: AttributeError unless it is a list. */
  function RemoveRequiredName(req: Json, name: Json): (r: Result<Json>)
    ensures req.Arr? ==> (r.Ok? <==> name in req.items)
    ensures req.Arr? && r.Err? ==> r.error.ValueError?
    ensures r.Ok? ==> req.Arr? && r.value.Arr?
  {
    if req.Arr? then
      var xs :- RemoveFirst(req.items, name);
      Ok(Arr(xs))
    else Err(AttributeError("remove"))
  }

  /** The name is removed when a test on its property holds. */
  function RemoveRequiredIf(b: bool, req: Json, name: Json): (r: Result<Json>)
    ensures !b ==> r == Ok(req)
    ensures b ==> r == RemoveRequiredName(req, name)
  {
    if b then RemoveRequiredName(req, name) else Ok(req)
  }

  /** One turn of the loop of `_remove_required_flag`: the name's property
      is looked up, and the name is removed once for a `$ref` and once more
      for an `items` holding a `$ref`. */
  function DropRequired(props: Json, req: Json, name: Json): (r: Result<Json>)
  {
    var p :- Subscript(props, name);
    var hasRef :- InJ("$ref", p);
    var req1 :- RemoveRequiredIf(hasRef, req, name);
    var hasItems := InJ("items", p).value;
    if !hasItems then Ok(req1)
    else
      var items :- Subscript(p, Str("items"));
      var itemsRef :- InJ("$ref", items);
      RemoveRequiredIf(itemsRef, req1, name)
  }

  /** The loop over a snapshot of the `required` names. */
  function DropAllRequired(props: Json, req: Json, names: seq<Json>): (r: Result<Json>)
    decreases |names|
  {
    if names == [] then Ok(req)
    else
      var req' :- DropRequired(props, req, names[0]);
      DropAllRequired(props, req', names[1..])
  }

  /** `_remove_required_flag` on one schema. */
  function RemoveRequired(schema: Fields): (r: Result<Fields>)
    ensures !Has(schema, "properties") || !Has(schema, "required") ==> r == Ok(schema)
    ensures r.Ok? ==> forall k :: k != "required" ==> Get(r.value, k) == Get(schema, k)
    ensures r.Ok? && Has(schema, "properties") && Has(r.value, "required") ==>
              Len(At(r.value, "required")) != Ok(0)
  {
    if !Has(schema, "properties") || !Has(schema, "required") then Ok(schema)
    else
      var req := At(schema, "required");
      var names :- Iterate(req);
      var req' :- DropAllRequired(At(schema, "properties"), req, names);
      var n :- Len(req');
      if n == 0 then Ok(Del(schema, "required")) else Ok(Put(schema, "required", req'))
  }

  /** `_remove_required_flag` on one schema, with its loop over a copy of
      the `required` list while the list itself shrinks. */
  method RemoveRequiredFlag(schema: Fields) returns (r: Result<Fields>)
    ensures r == RemoveRequired(schema)
  {
    if !Has(schema, "properties") || !Has(schema, "required") {
      return Ok(schema);
    }
    var props := At(schema, "properties");
    var req := At(schema, "required");
    var names :- Iterate(req);
    var i := 0;
    while i < |names|
      invariant 0 <= i <= |names|
      invariant DropAllRequired(props, At(schema, "required"), names) == DropAllRequired(props, req, names[i..])
    {
      assert names[i..][0] == names[i] && names[i..][1..] == names[i + 1..];
      var step := DropRequired(props, req, names[i]);
      if step.Err? {
        return Err(step.error);
      }
      req := step.value;
      i := i + 1;
    }
    assert names[i..] == [];
    var n :- Len(req);
    if n == 0 {
      r := Ok(Del(schema, "required"));
    } else {
      r := Ok(Put(schema, "required", req));
    }
  }

  /** The required property `name` refers to a sub-resource through `$ref`,
      or through an `items` holding a `$ref`. */
  predicate RefersToType(props: Fields, name: Json)
  {
    name.Str? && Get(props, name.s).Some? && Get(props, name.s).value.Obj? &&
    var p := Get(props, name.s).value.fields;
    Has(p, "$ref") || (Has(p, "items") && ObjHas(At(p, "items"), "$ref"))
  }

  /** Both at once: the name would be removed twice. */
  predicate BothRefs(props: Fields, name: Json)
  {
    name.Str? && Get(props, name.s).Some? && Get(props, name.s).value.Obj? &&
    var p := Get(props, name.s).value.fields;
    Has(p, "$ref") && Has(p, "items") && ObjHas(At(p, "items"), "$ref")
  }

  /** A required name as the schemas carry it: a string naming a dict
      property whose `items`, when present, is a dict. */
  predicate ShapedRequired(props: Fields, name: Json)
  {
    name.Str? && Get(props, name.s).Some? && Get(props, name.s).value.Obj? &&
    (Has(Get(props, name.s).value.fields, "items") ==> At(Get(props, name.s).value.fields, "items").Obj?)
  }

  /** Well-formed `required` names: distinct and shaped. */
  predicate WellFormedRequired(props: Fields, names: seq<Json>)
  {
    Distinct(names) && forall x :: x in names ==> ShapedRequired(props, x)
  }

  lemma DistinctSplit(a: seq<Json>, x: Json, b: seq<Json>)
    requires Distinct(a + [x] + b)
    ensures x !in a && x !in b
  {
    var all := a + [x] + b;
    assert all[|a|] == x;
    forall i | 0 <= i < |a| ensures a[i] != x {
      assert a[i] == all[i];
    }
    forall i | 0 <= i < |b| ensures b[i] != x {
      assert b[i] == all[|a| + 1 + i];
    }
  }

  /** The reference definition: the required names whose property does not
      refer to a sub-resource, in order. */
  function KeptRequired(props: Fields, names: seq<Json>): (r: seq<Json>)
    ensures forall x :: x in r <==> x in names && !RefersToType(props, x)
  {
    if names == [] then []
    else
      var init := names[..|names| - 1];
      var last := names[|names| - 1];
      assert names == init + [last];
      KeptRequired(props, init) + (if RefersToType(props, last) then [] else [last])
  }

  lemma KeptRequiredSnoc(props: Fields, names: seq<Json>, x: Json)
    ensures KeptRequired(props, names + [x]) ==
            KeptRequired(props, names) + (if RefersToType(props, x) then [] else [x])
  {
    assert (names + [x])[..|names + [x]| - 1] == names;
  }

  /** One turn of the loop on a shaped name that neither `a` nor `b` holds,
      and that is not removed twice. */
  lemma DropRequiredStep(props: Fields, a: seq<Json>, x: Json, b: seq<Json>, req: Json, req1: Json)
    requires ShapedRequired(props, x) && x !in a && x !in b && !BothRefs(props, x)
    requires req == Arr(a + [x] + b)
    requires req1 == Arr(if RefersToType(props, x) then a + b else a + [x] + b)
    ensures DropRequired(Obj(props), req, x) == Ok(req1)
  {
    RemoveFirstAt(a, x, b);
    assert x !in a + b;
  }

  /** The same turn on a name with both a `$ref` and an `items.$ref`. */
  lemma DropRequiredTwice(props: Fields, a: seq<Json>, x: Json, b: seq<Json>, req: Json)
    requires ShapedRequired(props, x) && x !in a && x !in b && BothRefs(props, x)
    requires req == Arr(a + [x] + b)
    ensures DropRequired(Obj(props), req, x).Err?
    ensures DropRequired(Obj(props), req, x).error.ValueError?
  {
    RemoveFirstAt(a, x, b);
    assert x !in a + b;
  }

  lemma SplitAt(all: seq<Json>, i: nat)
    requires i < |all| && Distinct(all)
    ensures all[i] !in all[..i] && all[i] !in all[i + 1..]
    ensures all[..i + 1] == all[..i] + [all[i]]
    ensures all[i..] == [all[i]] + all[i + 1..]
  {
    assert all == all[..i] + [all[i]] + all[i + 1..];
    DistinctSplit(all[..i], all[i], all[i + 1..]);
  }

  /** Before turn `i` the list holds the kept names before `i` followed by
      all the names from `i` on; name `i` is in neither part. */
  lemma KeptShape(props: Fields, all: seq<Json>, i: nat)
    requires i < |all| && WellFormedRequired(props, all)
    ensures var x := all[i];
            var kept := KeptRequired(props, all[..i]);
            ShapedRequired(props, x) && x !in kept && x !in all[i + 1..] &&
            KeptRequired(props, all[..i]) + all[i..] == kept + [x] + all[i + 1..]
  {
    assert all[i] in all;
    SplitAt(all, i);
  }

  /** After turn `i` the list holds the kept names up to `i`. */
  lemma KeptShapeNext(props: Fields, all: seq<Json>, i: nat)
    requires i < |all|
    ensures var x := all[i];
            var kept := KeptRequired(props, all[..i]);
            KeptRequired(props, all[..i + 1]) + all[i + 1..] ==
              (if RefersToType(props, x) then kept + all[i + 1..] else kept + [x] + all[i + 1..])
  {
    assert all[..i + 1] == all[..i] + [all[i]];
    KeptRequiredSnoc(props, all[..i], all[i]);
  }

  lemma DropAllCons(props: Json, req: Json, names: seq<Json>, req': Json)
    requires names != [] && DropRequired(props, req, names[0]) == Ok(req')
    ensures DropAllRequired(props, req, names) == DropAllRequired(props, req', names[1..])
  {
  }

  /** Turns `i` to `j` over well-formed names, none removed twice, keep
      exactly the names of that stretch that do not refer to a sub-resource. */
  lemma {:induction false} DropAllKept(props: Fields, all: seq<Json>, i: nat, j: nat, req: Json, req2: Json)
    requires i <= j <= |all| && WellFormedRequired(props, all)
    requires forall k :: i <= k < j ==> !BothRefs(props, all[k])
    requires req == Arr(KeptRequired(props, all[..i]) + all[i..])
    requires req2 == Arr(KeptRequired(props, all[..j]) + all[j..])
    ensures DropAllRequired(Obj(props), req, all[i..]) == DropAllRequired(Obj(props), req2, all[j..])
    decreases j - i
  {
    if i < j {
      var req1 := Arr(KeptRequired(props, all[..i + 1]) + all[i + 1..]);
      KeptShape(props, all, i);
      KeptShapeNext(props, all, i);
      DropRequiredStep(props, KeptRequired(props, all[..i]), all[i], all[i + 1..], req, req1);
      assert all[i..][0] == all[i] && all[i..][1..] == all[i + 1..];
      DropAllCons(Obj(props), req, all[i..], req1);
      DropAllKept(props, all, i + 1, j, req1, req2);
    }
  }

  /** The whole loop over well-formed names, none removed twice. */
  lemma DropAllKeptAll(props: Fields, names: seq<Json>)
    requires WellFormedRequired(props, names) && forall x :: x in names ==> !BothRefs(props, x)
    ensures DropAllRequired(Obj(props), Arr(names), names) == Ok(Arr(KeptRequired(props, names)))
  {
    var kept := KeptRequired(props, names);
    assert names[..0] == [] && names[0..] == names;
    assert names[..|names|] == names && names[|names|..] == [];
    assert KeptRequired(props, []) + names == names;
    assert kept + [] == kept;
    assert forall k :: 0 <= k < |names| ==> names[k] in names;
    DropAllKept(props, names, 0, |names|, Arr(names), Arr(kept));
  }

  /** The whole loop over well-formed names reaching one removed twice. */
  lemma DropAllBoth(props: Fields, names: seq<Json>, i: nat)
    requires WellFormedRequired(props, names) && i < |names| && BothRefs(props, names[i])
    requires forall j :: 0 <= j < i ==> !BothRefs(props, names[j])
    ensures DropAllRequired(Obj(props), Arr(names), names).Err?
    ensures DropAllRequired(Obj(props), Arr(names), names).error.ValueError?
  {
    var req := Arr(KeptRequired(props, names[..i]) + names[i..]);
    assert names[..0] == [] && names[0..] == names;
    assert KeptRequired(props, []) + names == names;
    DropAllKept(props, names, 0, i, Arr(names), req);
    KeptShape(props, names, i);
    DropRequiredTwice(props, KeptRequired(props, names[..i]), names[i], names[i + 1..], req);
    assert names[i..][0] == names[i];
  }

  /** `_remove_required_flag` on well-formed `required` names keeps exactly
      the names whose property has neither `$ref` nor `items.$ref`, and
      deletes `required` when none is left. */
  lemma RemoveRequiredKept(schema: Fields)
    requires Has(schema, "properties") && At(schema, "properties").Obj?
    requires Has(schema, "required") && At(schema, "required").Arr?
    requires var props := At(schema, "properties").fields;
             var names := At(schema, "required").items;
             WellFormedRequired(props, names) && forall x :: x in names ==> !BothRefs(props, x)
    ensures RemoveRequired(schema).Ok?
    ensures var props := At(schema, "properties").fields;
            var kept := KeptRequired(props, At(schema, "required").items);
            var r := RemoveRequired(schema).value;
            (kept == [] ==> !Has(r, "required")) &&
            (kept != [] ==> Get(r, "required") == Some(Arr(kept)))
  {
    DropAllKeptAll(At(schema, "properties").fields, At(schema, "required").items);
  }

  /** A required property with both a `$ref` and an `items.$ref` is removed
      twice, and the second `remove` raises ValueError. */
  lemma BothRefsFails(schema: Fields, i: nat)
    requires Has(schema, "properties") && At(schema, "properties").Obj?
    requires Has(schema, "required") && At(schema, "required").Arr?
    requires var props := At(schema, "properties").fields;
             var names := At(schema, "required").items;
             WellFormedRequired(props, names) && i < |names| && BothRefs(props, names[i]) &&
             forall j :: 0 <= j < i ==> !BothRefs(props, names[j])
    ensures RemoveRequired(schema).Err? && RemoveRequired(schema).error.ValueError?
  {
    DropAllBoth(At(schema, "properties").fields, At(schema, "required").items, i);
  }
}
