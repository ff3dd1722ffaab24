// What `_extract_schemas` does to one class's JSON schema after it is
// generated: `$id`, bindings, backrefs on the reference properties, the
// description, the `resource_type`/`for` renames and the `$ref` styling.

module SchemaExtract {

  import opened Text
  import opened Json
  import opened Inflection
  import opened SchemaClassify

  /** `v['backref'] = name` on a property dict. */
  function WithBackref(p: Json, name: string): (r: Json)
    ensures p.Obj? ==> r.Obj? && Get(r.fields, "backref") == Some(Str(name))
    ensures p.Obj? ==> forall k :: k != "backref" ==> Get(r.fields, k) == Get(p.fields, k)
  {
    if p.Obj? then Obj(Put(p.fields, "backref", Str(name))) else p
  }

  predicate HasBackref(p: Json)
  {
    p.Obj? && Has(p.fields, "backref")
  }

  /** `props2` is `props` with every property named in `refs` given the backref
      `name(k, v)`, and nothing else changed. */
  ghost predicate Decorated(props: Fields, refs: Fields, name: (string, Json) -> Result<string>, props2: Fields)
  {
    Keys(props2) == Keys(props) &&
    (forall kv :: kv in refs ==> name(kv.0, kv.1).Ok? && Get(props2, kv.0) == Some(WithBackref(kv.1, name(kv.0, kv.1).value))) &&
    (forall k :: !Has(refs, k) ==> Get(props2, k) == Get(props, k))
  }

  /** `for k, v in references.items(): v['backref'] = <name>`: `references`
      holds the very dicts stored in the schema's properties, so each
      assignment is seen there.  The first name that cannot be computed
      stops the loop with its error; otherwise every reference property
      carries its backref and nothing else changes. */
  method SetBackrefs(props: Fields, refs: Fields, name: (string, Json) -> Result<string>) returns (r: Result<Fields>)
    requires UniqueKeys(props) && UniqueKeys(refs)
    requires forall kv :: kv in refs ==> Has(props, kv.0)
    ensures r.Ok? <==> forall kv :: kv in refs ==> name(kv.0, kv.1).Ok?
    ensures r.Ok? ==> Decorated(props, refs, name, r.value) && UniqueKeys(r.value)
  {
    var out := props;
    var i := 0;
    while i < |refs|
      invariant 0 <= i <= |refs|
      invariant forall j :: 0 <= j < i ==> name(refs[j].0, refs[j].1).Ok?
      invariant Decorated(props, refs[..i], name, out)
      invariant UniqueKeys(out)
    {
      var (k, v) := refs[i];
      var b := name(k, v);
      if b.Err? {
        assert refs[i] in refs;
        return Err(b.error);
      }
      SetBackrefsStep(props, refs, name, i, out);
      out := Put(out, k, WithBackref(v, b.value));
      i := i + 1;
    }
    assert refs[..i] == refs;
    SetBackrefsDone(refs, name);
    r := Ok(out);
  }

  /** One turn of the loop keeps `Decorated` for one more reference. */
  lemma SetBackrefsStep(props: Fields, refs: Fields, name: (string, Json) -> Result<string>, i: nat, out: Fields)
    requires UniqueKeys(refs) && i < |refs|
    requires forall kv :: kv in refs ==> Has(props, kv.0)
    requires Decorated(props, refs[..i], name, out) && UniqueKeys(out)
    requires name(refs[i].0, refs[i].1).Ok?
    ensures var out2 := Put(out, refs[i].0, WithBackref(refs[i].1, name(refs[i].0, refs[i].1).value));
            Decorated(props, refs[..i + 1], name, out2) && UniqueKeys(out2)
  {
    var (k, v) := refs[i];
    UniqueKeysPrefix(refs, i);
    assert Has(props, k) by { assert refs[i] in refs; }
    DecoratedStep(props, refs[..i], name, out, k, v);
    TakeNext(refs, i);
  }

  /** A prefix one longer is the prefix and the next pair. */
  lemma TakeNext(f: Fields, i: nat)
    requires i < |f|
    ensures f[..i + 1] == f[..i] + [f[i]]
  {
  }

  /** Every backref name computed, said of the pairs. */
  lemma SetBackrefsDone(refs: Fields, name: (string, Json) -> Result<string>)
    requires forall j :: 0 <= j < |refs| ==> name(refs[j].0, refs[j].1).Ok?
    ensures forall kv :: kv in refs ==> name(kv.0, kv.1).Ok?
  {
    forall kv | kv in refs ensures name(kv.0, kv.1).Ok? {
      var j :| 0 <= j < |refs| && refs[j] == kv;
    }
  }

  /** One iteration of the backref loop keeps `Decorated`. */
  lemma DecoratedStep(props: Fields, pre: Fields, name: (string, Json) -> Result<string>, out: Fields, k: string, v: Json)
    requires !Has(pre, k) && Has(props, k) && name(k, v).Ok?
    requires Decorated(props, pre, name, out)
    ensures Decorated(props, pre + [(k, v)], name, Put(out, k, WithBackref(v, name(k, v).value)))
  {
    StepNamed(props, pre, name, out, k, v);
    StepOthers(props, pre, name, out, k, v);
  }

  lemma StepNamed(props: Fields, pre: Fields, name: (string, Json) -> Result<string>, out: Fields, k: string, v: Json)
    requires !Has(pre, k) && name(k, v).Ok?
    requires forall kv :: kv in pre ==> name(kv.0, kv.1).Ok? && Get(out, kv.0) == Some(WithBackref(kv.1, name(kv.0, kv.1).value))
    ensures forall kv :: kv in pre + [(k, v)] ==>
              name(kv.0, kv.1).Ok? && Get(Put(out, k, WithBackref(v, name(k, v).value)), kv.0) == Some(WithBackref(kv.1, name(kv.0, kv.1).value))
  {
    var out2 := Put(out, k, WithBackref(v, name(k, v).value));
    forall kv | kv in pre + [(k, v)]
      ensures name(kv.0, kv.1).Ok? && Get(out2, kv.0) == Some(WithBackref(kv.1, name(kv.0, kv.1).value))
    {
      if kv != (k, v) {
        assert kv in pre;
        assert kv.0 in Keys(pre) by { var j :| 0 <= j < |pre| && pre[j] == kv; assert Keys(pre)[j] == kv.0; }
      }
    }
  }

  lemma StepOthers(props: Fields, pre: Fields, name: (string, Json) -> Result<string>, out: Fields, k: string, v: Json)
    requires Has(props, k) && name(k, v).Ok?
    requires Keys(out) == Keys(props)
    requires forall k' :: !Has(pre, k') ==> Get(out, k') == Get(props, k')
    ensures Keys(Put(out, k, WithBackref(v, name(k, v).value))) == Keys(props)
    ensures forall k' :: !Has(pre + [(k, v)], k') ==> Get(Put(out, k, WithBackref(v, name(k, v).value)), k') == Get(props, k')
  {
    assert Keys(pre + [(k, v)]) == Keys(pre) + [k];
  }

  /** In a dictionary the key at position `i` is not among the earlier keys. */
  lemma {:induction false} UniqueKeysPrefix(f: Fields, i: nat)
    requires UniqueKeys(f) && i < |f|
    ensures !Has(f[..i], f[i].0)
  {
    if i > 0 {
      UniqueKeysPrefix(f[1..], i - 1);
      assert f[..i] == [f[0]] + f[1..][..i - 1];
      assert f[1..][i - 1] == f[i];
      assert Keys(f[..i]) == [f[0].0] + Keys(f[1..][..i - 1]);
      assert Keys(f[1..])[i - 1] == f[i].0;
    }
  }

  /** `inflection.underscore(schema['$id'])` */
  function BaseBackref(schema: Fields): (r: Result<string>)
    ensures r.Ok? <==> Get(schema, "$id").Some? && Get(schema, "$id").value.Str?
    ensures r.Ok? ==> r.value == Underscore(Get(schema, "$id").value.s)
  {
    var id :- StrAt(schema, "$id");
    Ok(Underscore(id))
  }

  /** A scalar Reference or CodeableReference property. */
  predicate InScalarCategory(v: Json)
  {
    IsScalarOf(v, "Reference") || IsScalarOf(v, "CodeableReference")
  }

  /** A list of Reference or CodeableReference. */
  predicate InListCategory(v: Json)
  {
    IsListOfType(v, "Reference") == Ok(true) || IsListOfType(v, "CodeableReference") == Ok(true)
  }

  /** The scalar references: `_scalar_of_type` for Reference, updated with
      CodeableReference. */
  function ScalarRefs(schema: Fields): (r: Result<Fields>)
    requires PropsUnique(schema)
    ensures r.Ok? <==> PropsOf(schema).Ok?
    ensures r.Ok? ==> UniqueKeys(r.value)
    ensures r.Ok? ==> forall kv :: kv in r.value <==> kv in PropsOf(schema).value && InScalarCategory(kv.1)
  {
    var props :- PropsOf(schema);
    var a := ScalarOfType(schema, "Reference").value;
    var b := ScalarOfType(schema, "CodeableReference").value;
    UpdateUnion(a, b, props);
    Ok(Update(a, b))
  }

  /** The list references: `_list_of_type` for Reference, updated with
      CodeableReference. */
  function ListRefs(schema: Fields): (r: Result<Fields>)
    requires PropsUnique(schema)
    ensures r.Ok? <==> PropsOf(schema).Ok? && forall kv :: kv in PropsOf(schema).value ==> IsListOfAny(kv.1).Ok?
    ensures r.Ok? ==> UniqueKeys(r.value)
    ensures r.Ok? ==> forall kv :: kv in r.value <==> kv in PropsOf(schema).value && InListCategory(kv.1)
  {
    var a :- ListOfType(schema, "Reference");
    var b := ListOfType(schema, "CodeableReference").value;
    UpdateUnion(a, b, PropsOf(schema).value);
    Ok(Update(a, b))
  }

  /** All four reference categories, collected before any backref is set. */
  function AllRefs(schema: Fields): (r: Result<Fields>)
    requires PropsUnique(schema)
    ensures r.Ok? <==> ScalarRefs(schema).Ok? && ListRefs(schema).Ok?
    ensures r.Ok? ==> forall kv :: kv in r.value <==> kv in PropsOf(schema).value && (InScalarCategory(kv.1) || InListCategory(kv.1))
  {
    var s :- ScalarRefs(schema);
    var l :- ListRefs(schema);
    UpdateUnion(s, l, PropsOf(schema).value);
    Ok(Update(s, l))
  }

  /** Updating one sub-dictionary of `props` with another gives their union. */
  lemma UpdateUnion(a: Fields, b: Fields, props: Fields)
    requires UniqueKeys(props) && UniqueKeys(a) && UniqueKeys(b)
    requires forall kv :: kv in a ==> kv in props
    requires forall kv :: kv in b ==> kv in props
    ensures UniqueKeys(Update(a, b))
    ensures forall kv :: kv in Update(a, b) <==> kv in a || kv in b
  {
    var u := Update(a, b);
    forall kv | kv in u ensures kv in a || kv in b {
      UniqueKeysIn(u, kv.0, kv.1);
      if Has(b, kv.0) {
        assert Get(b, kv.0) == Some(kv.1);
      } else {
        assert Get(a, kv.0) == Some(kv.1);
      }
    }
    forall kv | kv in a || kv in b ensures kv in u {
      UniqueKeysIn(props, kv.0, kv.1);
      if kv in b {
        InHas(b, kv);
      }
      if Has(b, kv.0) {
        var v := Get(b, kv.0).value;
        UniqueKeysIn(props, kv.0, v);
        assert Get(u, kv.0) == Some(kv.1);
      } else {
        UniqueKeysIn(a, kv.0, kv.1);
        assert Get(u, kv.0) == Some(kv.1);
      }
    }
  }

  /** `set(v.get('enum_reference_types', []))` */
  function TargetSet(v: Json): (r: Result<set<Json>>)
    ensures r.Ok? ==> TargetsOf(v).Ok? && r.value == set t | t in TargetsOf(v).value
    ensures r.Ok? <==> TargetsOf(v).Ok? && forall t :: t in TargetsOf(v).value ==> Hashable(t)
  {
    var ts :- TargetsOf(v);
    if forall t :: t in ts ==> Hashable(t) then Ok(set t | t in ts)
    else Err(TypeError("unhashable type"))
  }

  /** The backref of a scalar reference: the base name, or `{k}_{base}` when
      one of its targets is contested. */
  function ScalarBackref(k: string, v: Json, contested: set<Json>, base: string): (r: Result<string>)
    ensures r.Ok? <==> TargetSet(v).Ok?
    ensures r.Ok? && (exists t :: t in TargetSet(v).value && t in contested) ==> r.value == k + "_" + base
    ensures r.Ok? && (forall t :: t in TargetSet(v).value ==> t !in contested) ==> r.value == base
  {
    var ets :- TargetSet(v);
    if contested * ets != {} then
      var t :| t in contested * ets;
      Ok(k + "_" + base)
    else
      assert forall t :: t in ets ==> t !in contested by {
        forall t | t in ets ensures t !in contested {
          assert t !in contested * ets;
        }
      }
      Ok(base)
  }

  /** The backref of a list reference: always `{k}_{base}`. */
  function ListBackref(k: string, base: string): (r: string)
    ensures StartsWith(r, k + "_") && EndsWith(r, base)
    ensures |r| == |k| + 1 + |base|
  {
    var r := k + "_" + base;
    assert r[..|k| + 1] == k + "_";
    assert r[|r| - |base|..] == base;
    r
  }

  /** The base backref name, or `""` when `$id` is not a string (it is then
      never used, as the decorators raise before naming anything). */
  function BaseOr(schema: Fields): string
  {
    match BaseBackref(schema)
    case Ok(b) => b
    case Err(_) => ""
  }

  /** `props2` is `props` with each scalar reference of `refs` given its
      scalar backref. */
  ghost predicate ScalarDecorated(props: Fields, refs: Fields, contested: set<Json>, base: string, props2: Fields)
  {
    Keys(props2) == Keys(props) &&
    (forall kv :: kv in refs ==>
       ScalarBackref(kv.0, kv.1, contested, base).Ok? &&
       Get(props2, kv.0) == Some(WithBackref(kv.1, ScalarBackref(kv.0, kv.1, contested, base).value))) &&
    (forall k :: !Has(refs, k) ==> Get(props2, k) == Get(props, k))
  }

  /** `props2` is `props` with each list reference of `refs` given `{k}_{base}`. */
  ghost predicate ListDecorated(props: Fields, refs: Fields, base: string, props2: Fields)
  {
    Keys(props2) == Keys(props) &&
    (forall kv :: kv in refs ==> Get(props2, kv.0) == Some(WithBackref(kv.1, ListBackref(kv.0, base)))) &&
    (forall k :: !Has(refs, k) ==> Get(props2, k) == Get(props, k))
  }

  lemma AsScalarDecorated(props: Fields, refs: Fields, name: (string, Json) -> Result<string>, contested: set<Json>, base: string, props2: Fields)
    requires forall k, v :: name(k, v) == ScalarBackref(k, v, contested, base)
    requires Decorated(props, refs, name, props2)
    ensures ScalarDecorated(props, refs, contested, base, props2)
  {
  }

  /** The scalar backref names can all be computed exactly when every
      target set can. */
  lemma ScalarNamesOk(refs: Fields, name: (string, Json) -> Result<string>, contested: set<Json>, base: string)
    requires forall k, v :: name(k, v) == ScalarBackref(k, v, contested, base)
    ensures (forall kv :: kv in refs ==> name(kv.0, kv.1).Ok?) <==> (forall kv :: kv in refs ==> TargetSet(kv.1).Ok?)
  {
  }

  lemma AsListDecorated(props: Fields, refs: Fields, name: (string, Json) -> Result<string>, base: string, props2: Fields)
    requires forall k, v :: name(k, v) == Ok(ListBackref(k, base))
    requires Decorated(props, refs, name, props2)
    ensures ListDecorated(props, refs, base, props2)
  {
  }

  /** `_decorate_scalar_reference_backref(schema, targets_to_itemize)` */
  method DecorateScalarBackrefs(schema: Fields, contested: set<Json>) returns (r: Result<Fields>)
    requires PropsUnique(schema)
    ensures r.Ok? ==> ScalarRefs(schema).Ok? && PropsOf(r.value).Ok? && PropsUnique(r.value)
    ensures r.Ok? ==> forall k :: k != "properties" ==> Get(r.value, k) == Get(schema, k)
    ensures r.Ok? ==> ScalarDecorated(PropsOf(schema).value, ScalarRefs(schema).value, contested, BaseOr(schema), PropsOf(r.value).value)
    ensures r.Ok? && ScalarRefs(schema).value != [] ==> BaseBackref(schema).Ok?
    ensures (PropsOf(schema).Ok? && (ScalarRefs(schema).value != [] ==> BaseBackref(schema).Ok?) &&
             forall kv :: kv in ScalarRefs(schema).value ==> TargetSet(kv.1).Ok?) ==> r.Ok?
  {
    var refs :- ScalarRefs(schema);
    var props := PropsOf(schema).value;
    if refs == [] {
      r := Ok(schema);
      assert PropsOf(r.value).value == props;
      return;
    }
    var base :- BaseBackref(schema);
    var name := (k, v) => ScalarBackref(k, v, contested, base);
    forall kv | kv in refs ensures Has(props, kv.0) { InHas(props, kv); }
    ScalarNamesOk(refs, name, contested, base);
    var props2 :- SetBackrefs(props, refs, name);
    AsScalarDecorated(props, refs, name, contested, base, props2);
    r := Ok(WithProps(schema, props2));
  }

  /** `_decorate_list_reference_backref(schema, targets_to_itemize)` */
  method DecorateListBackrefs(schema: Fields) returns (r: Result<Fields>)
    requires PropsUnique(schema)
    ensures r.Ok? ==> ListRefs(schema).Ok? && PropsOf(r.value).Ok? && PropsUnique(r.value)
    ensures r.Ok? ==> forall k :: k != "properties" ==> Get(r.value, k) == Get(schema, k)
    ensures r.Ok? ==> ListDecorated(PropsOf(schema).value, ListRefs(schema).value, BaseOr(schema), PropsOf(r.value).value)
    ensures r.Ok? && ListRefs(schema).value != [] ==> BaseBackref(schema).Ok?
    ensures ListRefs(schema).Ok? && (ListRefs(schema).value != [] ==> BaseBackref(schema).Ok?) ==> r.Ok?
  {
    var refs :- ListRefs(schema);
    var props := PropsOf(schema).value;
    if refs == [] {
      r := Ok(schema);
      assert PropsOf(r.value).value == props;
      return;
    }
    var base :- BaseBackref(schema);
    var name := (k: string, v: Json) => Ok(ListBackref(k, base));
    forall kv | kv in refs ensures Has(props, kv.0) { InHas(props, kv); }
    var props2 := SetBackrefs(props, refs, name);
    AsListDecorated(props, refs, name, base, props2.value);
    r := Ok(WithProps(schema, props2.value));
  }

  /** Two properties that agree on `type`, `$ref` and `items` are classified
      alike. */
  lemma SameShape(v: Json, w: Json)
    requires v.Obj? && w.Obj?
    requires Get(w.fields, "type") == Get(v.fields, "type")
    requires Get(w.fields, "items") == Get(v.fields, "items")
    requires Get(w.fields, "$ref") == Get(v.fields, "$ref")
    ensures IsListOfAny(w) == IsListOfAny(v)
    ensures InListCategory(w) == InListCategory(v)
    ensures InScalarCategory(w) == InScalarCategory(v)
  {
    SameShapeList(v, w);
    SameShapeScalar(v, w);
  }

  lemma SameShapeList(v: Json, w: Json)
    requires v.Obj? && w.Obj?
    requires Get(w.fields, "type") == Get(v.fields, "type")
    requires Get(w.fields, "items") == Get(v.fields, "items")
    requires Get(w.fields, "$ref") == Get(v.fields, "$ref")
    ensures IsListOfAny(w) == IsListOfAny(v)
    ensures InListCategory(w) == InListCategory(v)
  {
  }

  lemma SameShapeScalar(v: Json, w: Json)
    requires v.Obj? && w.Obj?
    requires Get(w.fields, "type") == Get(v.fields, "type")
    requires Get(w.fields, "items") == Get(v.fields, "items")
    requires Get(w.fields, "$ref") == Get(v.fields, "$ref")
    ensures InScalarCategory(w) == InScalarCategory(v)
  {
  }

  /** A backref does not change how a property is classified: the
      classifiers look only at `type`, `$ref` and `items`. */
  lemma ClassOfBackref(v: Json, b: string)
    ensures IsListOfAny(WithBackref(v, b)) == IsListOfAny(v)
    ensures InListCategory(WithBackref(v, b)) == InListCategory(v)
    ensures InScalarCategory(WithBackref(v, b)) == InScalarCategory(v)
  {
    if v.Obj? {
      SameShape(v, WithBackref(v, b));
    }
  }

  /** What the scalar pass left at key `k`. */
  lemma AfterScalar(props: Fields, srefs: Fields, contested: set<Json>, base: string, props1: Fields, k: string, v: Json)
    requires UniqueKeys(props) && (k, v) in props
    requires forall kv :: kv in srefs <==> kv in props && InScalarCategory(kv.1)
    requires ScalarDecorated(props, srefs, contested, base, props1)
    ensures InScalarCategory(v) ==>
              ScalarBackref(k, v, contested, base).Ok? &&
              Get(props1, k) == Some(WithBackref(v, ScalarBackref(k, v, contested, base).value))
    ensures !InScalarCategory(v) ==> Get(props1, k) == Some(v)
  {
    UniqueKeysIn(props, k, v);
    if Has(srefs, k) {
      var i := HasAt(srefs, k);
      assert srefs[i] in srefs;
      UniqueKeysIn(props, k, srefs[i].1);
      assert srefs[i] == (k, v);
    } else if InScalarCategory(v) {
      InHas(srefs, (k, v));
    }
  }

  /** What the list pass left at key `k`. */
  lemma AfterList(props1: Fields, lrefs: Fields, base: string, props2: Fields, k: string, v1: Json)
    requires UniqueKeys(props1) && (k, v1) in props1
    requires forall kv :: kv in lrefs <==> kv in props1 && InListCategory(kv.1)
    requires ListDecorated(props1, lrefs, base, props2)
    ensures InListCategory(v1) ==> Get(props2, k) == Some(WithBackref(v1, ListBackref(k, base)))
    ensures !InListCategory(v1) ==> Get(props2, k) == Some(v1)
  {
    UniqueKeysIn(props1, k, v1);
    if Has(lrefs, k) {
      var i := HasAt(lrefs, k);
      assert lrefs[i] in lrefs;
      UniqueKeysIn(props1, k, lrefs[i].1);
      assert lrefs[i] == (k, v1);
    } else if InListCategory(v1) {
      InHas(lrefs, (k, v1));
    }
  }

  /** The state `_decorate_schema_backrefs` promises: list references carry
      `{k}_{base}`, scalar-only references their scalar backref, and every
      other property is as it was. */
  ghost predicate BackrefsDone(props: Fields, contested: set<Json>, base: string, props2: Fields)
  {
    Keys(props2) == Keys(props) &&
    (forall kv :: kv in props && InListCategory(kv.1) ==>
       Get(props2, kv.0).Some? && Get(props2, kv.0).value.Obj? &&
       Get(Get(props2, kv.0).value.fields, "backref") == Some(Str(ListBackref(kv.0, base)))) &&
    (forall kv :: kv in props && InScalarCategory(kv.1) && !InListCategory(kv.1) ==>
       ScalarBackref(kv.0, kv.1, contested, base).Ok? &&
       Get(props2, kv.0) == Some(WithBackref(kv.1, ScalarBackref(kv.0, kv.1, contested, base).value))) &&
    (forall kv :: kv in props && !InScalarCategory(kv.1) && !InListCategory(kv.1) ==>
       Get(props2, kv.0) == Some(kv.1))
  }

  /** Every reference ends with a backref. */
  lemma BackrefsDoneHasBackref(props: Fields, contested: set<Json>, base: string, props2: Fields, k: string, v: Json)
    requires BackrefsDone(props, contested, base, props2)
    requires (k, v) in props && (InScalarCategory(v) || InListCategory(v))
    ensures Get(props2, k).Some? && HasBackref(Get(props2, k).value)
  {
  }

  /** The scalar pass followed by the list pass reaches `BackrefsDone`. */
  lemma TwoPasses(props: Fields, srefs: Fields, contested: set<Json>, base: string, props1: Fields, lrefs: Fields, props2: Fields)
    requires UniqueKeys(props) && UniqueKeys(props1)
    requires forall kv :: kv in srefs <==> kv in props && InScalarCategory(kv.1)
    requires ScalarDecorated(props, srefs, contested, base, props1)
    requires forall kv :: kv in lrefs <==> kv in props1 && InListCategory(kv.1)
    requires ListDecorated(props1, lrefs, base, props2)
    ensures BackrefsDone(props, contested, base, props2)
  {
    forall kv | kv in props
      ensures Get(props2, kv.0).Some?
      ensures InListCategory(kv.1) ==>
                Get(props2, kv.0).value.Obj? &&
                Get(Get(props2, kv.0).value.fields, "backref") == Some(Str(ListBackref(kv.0, base)))
      ensures InScalarCategory(kv.1) && !InListCategory(kv.1) ==>
                ScalarBackref(kv.0, kv.1, contested, base).Ok? &&
                Get(props2, kv.0) == Some(WithBackref(kv.1, ScalarBackref(kv.0, kv.1, contested, base).value))
      ensures !InScalarCategory(kv.1) && !InListCategory(kv.1) ==> Get(props2, kv.0) == Some(kv.1)
    {
      var (k, v) := kv;
      AfterScalar(props, srefs, contested, base, props1, k, v);
      var v1 := Get(props1, k).value;
      if InScalarCategory(v) {
        ClassOfBackref(v, ScalarBackref(k, v, contested, base).value);
      }
      assert InListCategory(v1) == InListCategory(v);
      AfterList(props1, lrefs, base, props2, k, v1);
      if InListCategory(v) {
        ClassOfBackref(v1, ListBackref(k, base));
      }
    }
  }

  /** The list classification of the decorated properties succeeds exactly
      when it did on the original ones. */
  lemma ListOkAfterScalar(props: Fields, srefs: Fields, contested: set<Json>, base: string, props1: Fields)
    requires UniqueKeys(props) && UniqueKeys(props1)
    requires forall kv :: kv in srefs <==> kv in props && InScalarCategory(kv.1)
    requires ScalarDecorated(props, srefs, contested, base, props1)
    ensures (forall kv :: kv in props1 ==> IsListOfAny(kv.1).Ok?) <==> (forall kv :: kv in props ==> IsListOfAny(kv.1).Ok?)
    ensures (forall kv :: kv in props ==> !InListCategory(kv.1)) ==> forall kv :: kv in props1 ==> !InListCategory(kv.1)
    ensures forall kv :: kv in props ==>
              Get(props1, kv.0).Some? && (kv.0, Get(props1, kv.0).value) in props1 &&
              InListCategory(Get(props1, kv.0).value) == InListCategory(kv.1)
  {
    forall kv | kv in props
      ensures Get(props1, kv.0).Some? && (kv.0, Get(props1, kv.0).value) in props1
      ensures IsListOfAny(Get(props1, kv.0).value) == IsListOfAny(kv.1)
      ensures InListCategory(Get(props1, kv.0).value) == InListCategory(kv.1)
    {
      AfterScalar(props, srefs, contested, base, props1, kv.0, kv.1);
      if InScalarCategory(kv.1) {
        ClassOfBackref(kv.1, ScalarBackref(kv.0, kv.1, contested, base).value);
      }
    }
    forall kv | kv in props1
      ensures exists v :: (kv.0, v) in props && IsListOfAny(kv.1) == IsListOfAny(v) && InListCategory(kv.1) == InListCategory(v)
    {
      InHas(props1, kv);
      assert kv.0 in Keys(props);
      var i := HasAt(props, kv.0);
      assert props[i] in props;
      AfterScalar(props, srefs, contested, base, props1, kv.0, props[i].1);
      UniqueKeysIn(props1, kv.0, kv.1);
      if InScalarCategory(props[i].1) {
        ClassOfBackref(props[i].1, ScalarBackref(kv.0, props[i].1, contested, base).value);
      }
    }
  }

  /** `_decorate_schema_backrefs(schema)`: the contested targets are counted
      over all four reference categories before either pass runs. */
  method DecorateBackrefs(schema: Fields) returns (r: Result<Fields>)
    requires PropsUnique(schema)
    ensures r.Ok? ==> AllRefs(schema).Ok? && RefTargets(AllRefs(schema).value).Ok?
    ensures r.Ok? ==> PropsOf(r.value).Ok? && PropsUnique(r.value)
    ensures r.Ok? ==> forall k :: k != "properties" ==> Get(r.value, k) == Get(schema, k)
    ensures r.Ok? ==> BackrefsDone(PropsOf(schema).value, Contested(RefTargets(AllRefs(schema).value).value),
                                   BaseOr(schema), PropsOf(r.value).value)
    ensures r.Ok? && AllRefs(schema).value != [] ==> BaseBackref(schema).Ok?
    ensures (AllRefs(schema).Ok? && RefTargets(AllRefs(schema).value).Ok? &&
             (forall t :: t in RefTargets(AllRefs(schema).value).value ==> Hashable(t)) &&
             (AllRefs(schema).value != [] ==> BaseBackref(schema).Ok?)) ==> r.Ok?
  {
    var all :- AllRefs(schema);
    var contested :- TargetsToItemize(all);
    ScalarPassReady(schema, all);
    var s1 :- DecorateScalarBackrefs(schema, contested);
    ListPassReady(schema, all, contested, s1);
    r := DecorateListBackrefs(s1);
    if r.Ok? {
      var props, props1 := PropsOf(schema).value, PropsOf(s1).value;
      PassesDone(props, ScalarRefs(schema).value, contested, BaseOr(schema), props1, ListRefs(s1).value, PropsOf(r.value).value);
      AllRefsNamed(schema, props, all, s1, props1);
    }
  }

  /** What the scalar pass needs once the targets have been counted. */
  lemma ScalarPassReady(schema: Fields, all: Fields)
    requires PropsUnique(schema) && AllRefs(schema) == Ok(all)
    requires RefTargets(all).Ok? && forall t :: t in RefTargets(all).value ==> Hashable(t)
    ensures forall kv :: kv in ScalarRefs(schema).value ==> TargetSet(kv.1).Ok?
    ensures ScalarRefs(schema).value != [] ==> all != []
  {
    var srefs := ScalarRefs(schema).value;
    ScalarInAll(schema, all);
    forall kv | kv in srefs ensures TargetSet(kv.1).Ok? {
      RefTargetHashable(all, kv);
    }
    if srefs != [] {
      assert srefs[0] in srefs;
    }
  }

  /** Every scalar reference is among all the references. */
  lemma ScalarInAll(schema: Fields, all: Fields)
    requires PropsUnique(schema) && AllRefs(schema) == Ok(all)
    ensures forall kv :: kv in ScalarRefs(schema).value ==> kv in all
  {
  }

  /** A reference whose targets were all counted has a target set. */
  lemma RefTargetHashable(all: Fields, kv: (string, Json))
    requires kv in all
    requires RefTargets(all).Ok? && forall t :: t in RefTargets(all).value ==> Hashable(t)
    ensures TargetSet(kv.1).Ok?
  {
  }

  /** What the list pass needs after the scalar pass. */
  lemma ListPassReady(schema: Fields, all: Fields, contested: set<Json>, s1: Fields)
    requires PropsUnique(schema) && AllRefs(schema) == Ok(all)
    requires PropsOf(s1).Ok? && PropsUnique(s1)
    requires forall k :: k != "properties" ==> Get(s1, k) == Get(schema, k)
    requires ScalarDecorated(PropsOf(schema).value, ScalarRefs(schema).value, contested, BaseOr(schema), PropsOf(s1).value)
    ensures ListRefs(s1).Ok?
    ensures BaseBackref(s1) == BaseBackref(schema) && BaseOr(s1) == BaseOr(schema)
    ensures ListRefs(s1).value != [] ==> all != []
  {
    var props1 := PropsOf(s1).value;
    ListOkAfterScalar(PropsOf(schema).value, ScalarRefs(schema).value, contested, BaseOr(schema), props1);
    SameBase(schema, s1);
    ListRefsNonEmpty(schema, PropsOf(schema).value, all, s1, props1);
  }

  /** Schemas with the same `$id` have the same base backref. */
  lemma SameBase(schema: Fields, s1: Fields)
    requires Get(s1, "$id") == Get(schema, "$id")
    ensures BaseBackref(s1) == BaseBackref(schema) && BaseOr(s1) == BaseOr(schema)
  {
  }

  /** A list reference after the scalar pass was a reference before it. */
  lemma ListRefsNonEmpty(schema: Fields, props: Fields, all: Fields, s1: Fields, props1: Fields)
    requires PropsUnique(schema) && PropsOf(schema) == Ok(props) && AllRefs(schema) == Ok(all)
    requires PropsUnique(s1) && PropsOf(s1) == Ok(props1) && ListRefs(s1).Ok?
    requires (forall kv :: kv in props ==> !InListCategory(kv.1)) ==> forall kv :: kv in props1 ==> !InListCategory(kv.1)
    ensures ListRefs(s1).value != [] ==> all != []
  {
    var lrefs := ListRefs(s1).value;
    if lrefs != [] {
      assert lrefs[0] in props1 && InListCategory(lrefs[0].1);
      var kv :| kv in props && InListCategory(kv.1);
      assert kv in all;
    }
  }

  /** The state after both passes. */
  lemma PassesDone(props: Fields, srefs: Fields, contested: set<Json>, base: string, props1: Fields, lrefs: Fields, props2: Fields)
    requires UniqueKeys(props) && UniqueKeys(props1)
    requires forall kv :: kv in srefs <==> kv in props && InScalarCategory(kv.1)
    requires ScalarDecorated(props, srefs, contested, base, props1)
    requires forall kv :: kv in lrefs <==> kv in props1 && InListCategory(kv.1)
    requires ListDecorated(props1, lrefs, base, props2)
    ensures BackrefsDone(props, contested, base, props2)
    ensures forall kv :: kv in props ==>
              Get(props1, kv.0).Some? && (kv.0, Get(props1, kv.0).value) in props1 &&
              InListCategory(Get(props1, kv.0).value) == InListCategory(kv.1)
  {
    ListOkAfterScalar(props, srefs, contested, base, props1);
    TwoPasses(props, srefs, contested, base, props1, lrefs, props2);
  }

  /** With any reference at all, one of the two passes needed the base name. */
  lemma AllRefsNamed(schema: Fields, props: Fields, all: Fields, s1: Fields, props1: Fields)
    requires PropsUnique(schema) && PropsOf(schema) == Ok(props) && AllRefs(schema) == Ok(all)
    requires PropsUnique(s1) && PropsOf(s1) == Ok(props1) && ListRefs(s1).Ok?
    requires BaseBackref(s1) == BaseBackref(schema)
    requires ScalarRefs(schema).value != [] ==> BaseBackref(schema).Ok?
    requires ListRefs(s1).value != [] ==> BaseBackref(s1).Ok?
    requires forall kv :: kv in props ==>
               Get(props1, kv.0).Some? && (kv.0, Get(props1, kv.0).value) in props1 &&
               InListCategory(Get(props1, kv.0).value) == InListCategory(kv.1)
    ensures all != [] ==> BaseBackref(schema).Ok?
  {
    if all != [] {
      var kv := all[0];
      assert kv in all;
      if !InScalarCategory(kv.1) {
        assert (kv.0, Get(props1, kv.0).value) in ListRefs(s1).value;
      } else {
        assert kv in ScalarRefs(schema).value;
      }
    }
  }
}
