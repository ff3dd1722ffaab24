// How a FHIR object schema's properties are classified: a scalar or a list of
// a named type, a list of any embedded (capitalised) type, a scalar of any
// embedded (`.yaml`) type; and which reference targets are contested.

module SchemaClassify {

  import opened Text
  import opened Json

  /** `x[0].isupper()` for the value of `type` or `$ref` (or the default
      `'xxx'`): the first character of a string, the first item of a list. */
  function FirstIsUpper(j: Json): (r: Result<bool>)
    ensures j.Str? && j.s != [] ==> r == Ok(IsUpperChar(j.s[0]))
    ensures j.Str? && j.s == [] ==> r.Err?
    ensures r.Ok? ==> j.Str? || j.Arr?
  {
    match j
    case Str(s) =>
      if s == [] then Err(IndexError("string index out of range")) else Ok(IsUpperChar(s[0]))
    case Arr(xs) =>
      if xs == [] then Err(IndexError("list index out of range"))
      else if xs[0].Str? then Ok(PyIsUpper(xs[0].s))
      else Err(AttributeError("isupper"))
    case Obj(_) => Err(KeyError("0"))
    case _ => Err(TypeError("object is not subscriptable"))
  }

  /** A string value whose first character is an upper-case letter. */
  predicate StartsUpper(j: Json)
  {
    j.Str? && j.s != [] && IsUpperChar(j.s[0])
  }

  /** `type` or `$ref` of a property's `items`: absent, or a non-empty string. */
  predicate WellShapedItems(items: Fields)
  {
    (Get(items, "type").None? || (Get(items, "type").value.Str? && Get(items, "type").value.s != [])) &&
    (Get(items, "$ref").None? || (Get(items, "$ref").value.Str? && Get(items, "$ref").value.s != []))
  }

  /** `_is_list_of_any(property_)` */
  function IsListOfAny(p: Json): (r: Result<bool>)
    ensures r == Ok(true) ==>
              p.Obj? && Get(p.fields, "type") == Some(Str("array")) &&
              Get(p.fields, "items").Some? && Get(p.fields, "items").value.Obj?
    ensures !p.Obj? || Get(p.fields, "type") != Some(Str("array")) ==> r == Ok(false)
    ensures p.Obj? && Get(p.fields, "items") in {None, Some(Null)} ==> r == Ok(false)
    ensures p.Obj? && Get(p.fields, "type") == Some(Str("array")) &&
            Get(p.fields, "items").Some? && Get(p.fields, "items").value.Obj? &&
            WellShapedItems(Get(p.fields, "items").value.fields) ==>
              r == Ok(StartsUpper(GetOr(Get(p.fields, "items").value.fields, "type", Str("xxx"))) ||
                      StartsUpper(GetOr(Get(p.fields, "items").value.fields, "$ref", Str("xxx"))))
  {
    if !p.Obj? then Ok(false) else ListOfAnyShape(Get(p.fields, "type"), Get(p.fields, "items"))
  }

  /** `_is_list_of_any` on a dict, which looks only at `type` and `items`. */
  function ListOfAnyShape(ty: Option<Json>, items: Option<Json>): Result<bool>
  {
    if ty != Some(Str("array")) then Ok(false)
    else
      match items
      case None => Ok(false)
      case Some(items) =>
        if items == Null then Ok(false)
        else if !items.Obj? then Err(AttributeError("get"))
        else
          var t :- FirstIsUpper(GetOr(items.fields, "type", Str("xxx")));
          if t then Ok(true) else FirstIsUpper(GetOr(items.fields, "$ref", Str("xxx")))
  }

  /** `_is_list_of_type(property_, type_)` */
  function IsListOfType(p: Json, t: string): (r: Result<bool>)
    ensures r == Ok(true) ==> IsListOfAny(p) == Ok(true)
    ensures r.Ok? <==> IsListOfAny(p).Ok?
    ensures IsListOfAny(p) == Ok(true) ==>
              r == Ok(Get(Get(p.fields, "items").value.fields, "type") == Some(Str(t)) ||
                      Get(Get(p.fields, "items").value.fields, "$ref") == Some(Str(t + ".yaml")))
  {
    var any :- IsListOfAny(p);
    if !any then Ok(false)
    else
      var items := Get(p.fields, "items").value.fields;
      Ok(Get(items, "type") == Some(Str(t)) || Get(items, "$ref") == Some(Str(t + ".yaml")))
  }

  /** The condition of `_scalar_of_type`'s comprehension. */
  predicate IsScalarOf(v: Json, t: string)
  {
    v.Obj? && (Get(v.fields, "type") == Some(Str(t)) || Get(v.fields, "$ref") == Some(Str(t + ".yaml")))
  }

  /** `schema['properties'].items()`, or nothing when the schema has no
      `properties` (the classifiers then return `{}`). */
  function PropsOf(schema: Fields): (r: Result<Fields>)
    ensures !Has(schema, "properties") ==> r == Ok([])
    ensures r.Ok? && Has(schema, "properties") ==> Get(schema, "properties") == Some(Obj(r.value))
  {
    match Get(schema, "properties")
    case None => Ok([])
    case Some(Obj(p)) => Ok(p)
    case Some(_) => Err(AttributeError("items"))
  }

  /** Python dicts: the schema's own keys and its properties' keys are unique. */
  predicate PropsUnique(schema: Fields)
  {
    UniqueKeys(schema) && (PropsOf(schema).Ok? ==> UniqueKeys(PropsOf(schema).value))
  }

  /** Setting `properties` to a dict. */
  lemma PutProps(schema: Fields, props: Fields)
    ensures PropsOf(Put(schema, "properties", Obj(props))) == Ok(props)
    ensures UniqueKeys(schema) && UniqueKeys(props) ==> PropsUnique(Put(schema, "properties", Obj(props)))
  {
  }

  /** The schema with its `properties` dict replaced, in place. */
  function WithProps(schema: Fields, props: Fields): (r: Fields)
    ensures Get(r, "properties") == Some(Obj(props))
    ensures PropsOf(r) == Ok(props)
    ensures forall k :: k != "properties" ==> Get(r, k) == Get(schema, k)
    ensures Has(schema, "properties") ==> Keys(r) == Keys(schema)
    ensures UniqueKeys(schema) ==> UniqueKeys(r)
    ensures UniqueKeys(schema) && UniqueKeys(props) ==> PropsUnique(r)
  {
    PutProps(schema, props);
    Put(schema, "properties", Obj(props))
  }

  /** Setting a key other than `properties` leaves the properties alone. */
  lemma PutKeepsProps(schema: Fields, k: string, v: Json)
    requires k != "properties"
    ensures PropsOf(Put(schema, k, v)) == PropsOf(schema)
    ensures PropsUnique(schema) ==> PropsUnique(Put(schema, k, v))
  {
  }

  /** `_scalar_of_type(schema, type_)` */
  function ScalarOfType(schema: Fields, t: string): (r: Result<Fields>)
    ensures !Has(schema, "properties") ==> r == Ok([])
    ensures r.Ok? <==> PropsOf(schema).Ok?
    ensures r.Ok? ==> forall kv :: kv in r.value <==> kv in PropsOf(schema).value && IsScalarOf(kv.1, t)
    ensures r.Ok? && UniqueKeys(PropsOf(schema).value) ==> UniqueKeys(r.value)
  {
    var props :- PropsOf(schema);
    Ok(FilterFields(props, v => IsScalarOf(v, t)))
  }

  /** `_list_of_type(schema, type_)` */
  function ListOfType(schema: Fields, t: string): (r: Result<Fields>)
    ensures !Has(schema, "properties") ==> r == Ok([])
    ensures r.Ok? <==> PropsOf(schema).Ok? && forall kv :: kv in PropsOf(schema).value ==> IsListOfAny(kv.1).Ok?
    ensures r.Ok? ==> forall kv :: kv in r.value <==> kv in PropsOf(schema).value && IsListOfType(kv.1, t) == Ok(true)
    ensures r.Ok? ==> forall kv :: kv in r.value ==> IsListOfAny(kv.1) == Ok(true)
    ensures r.Ok? && UniqueKeys(PropsOf(schema).value) ==> UniqueKeys(r.value)
  {
    var props :- PropsOf(schema);
    FilterFieldsR(props, v => IsListOfType(v, t))
  }

  /** `_list_of_any_type(schema)` */
  function ListOfAnyType(schema: Fields): (r: Result<Fields>)
    ensures !Has(schema, "properties") ==> r == Ok([])
    ensures r.Ok? <==> PropsOf(schema).Ok? && forall kv :: kv in PropsOf(schema).value ==> IsListOfAny(kv.1).Ok?
    ensures r.Ok? ==> forall kv :: kv in r.value <==> kv in PropsOf(schema).value && IsListOfAny(kv.1) == Ok(true)
  {
    var props :- PropsOf(schema);
    FilterFieldsR(props, IsListOfAny)
  }

  /** The condition of `_scalar_of_any_type`'s comprehension:
      `'.yaml' in v.get('type', '') or '.yaml' in v.get('$ref', '')`. */
  function IsScalarOfAny(v: Json): (r: Result<bool>)
    ensures !v.Obj? ==> r == Ok(false)
    ensures v.Obj? && GetOr(v.fields, "type", Str("")).Str? && GetOr(v.fields, "$ref", Str("")).Str? ==>
              r == Ok(Contains(GetOr(v.fields, "type", Str("")).s, ".yaml") ||
                      Contains(GetOr(v.fields, "$ref", Str("")).s, ".yaml"))
  {
    if !v.Obj? then Ok(false)
    else
      var a :- InJ(".yaml", GetOr(v.fields, "type", Str("")));
      if a then Ok(true) else InJ(".yaml", GetOr(v.fields, "$ref", Str("")))
  }

  /** `_scalar_of_any_type(schema)` */
  function ScalarOfAnyType(schema: Fields): (r: Result<Fields>)
    ensures !Has(schema, "properties") ==> r == Ok([])
    ensures r.Ok? ==> PropsOf(schema).Ok?
    ensures r.Ok? ==> forall kv :: kv in r.value <==> kv in PropsOf(schema).value && IsScalarOfAny(kv.1) == Ok(true)
    ensures r.Ok? ==> forall kv :: kv in r.value ==> kv.1.Obj?
  {
    var props :- PropsOf(schema);
    FilterFieldsR(props, IsScalarOfAny)
  }

  /** `v.get('enum_reference_types', [])`, as the items a `for` visits. */
  function TargetsOf(v: Json): (r: Result<seq<Json>>)
    ensures r.Ok? ==> v.Obj?
    ensures v.Obj? && !Has(v.fields, "enum_reference_types") ==> r == Ok([])
    ensures v.Obj? && Get(v.fields, "enum_reference_types").Some? && Get(v.fields, "enum_reference_types").value.Arr? ==>
              r == Ok(Get(v.fields, "enum_reference_types").value.items)
  {
    if !v.Obj? then Err(AttributeError("get"))
    else Iterate(GetOr(v.fields, "enum_reference_types", Arr([])))
  }

  /** `[element for sublist in nestedlist for element in sublist]` over the
      references' target lists. */
  function RefTargets(refs: Fields): (r: Result<seq<Json>>)
    ensures r.Ok? <==> forall kv :: kv in refs ==> TargetsOf(kv.1).Ok?
    ensures r.Ok? ==> forall kv, t :: kv in refs && t in TargetsOf(kv.1).value ==> t in r.value
  {
    if refs == [] then Ok([])
    else
      match TargetsOf(refs[0].1)
      case Err(e) => Err(e)
      case Ok(ts) =>
        match RefTargets(refs[1..])
        case Err(e) =>
          assert exists kv :: kv in refs[1..] && TargetsOf(kv.1).Err?;
          Err(e)
        case Ok(rest) =>
          assert forall kv :: kv in refs ==> kv == refs[0] || kv in refs[1..];
          Ok(ts + rest)
  }

  /** The reference definition of the contested targets: those occurring more
      than once among all the references' targets. */
  function Contested(targets: seq<Json>): (r: set<Json>)
    ensures forall t :: t in r <==> multiset(targets)[t] > 1
  {
    set t | t in targets && multiset(targets)[t] > 1
  }

  /** The count a `defaultdict(int)` reports for `t`. */
  function CountOf(counts: map<Json, nat>, t: Json): nat
  {
    if t in counts then counts[t] else 0
  }

  /** The counting loop of `_targets_to_itemize`: each target is counted in a
      dictionary and those counted more than once are kept. A list or dict
      cannot be a dictionary key (TypeError). */
  method CountContested(targets: seq<Json>) returns (r: Result<set<Json>>)
    ensures r.Ok? <==> forall t :: t in targets ==> Hashable(t)
    ensures r.Ok? ==> r.value == Contested(targets)
  {
    var counts: map<Json, nat> := map[];
    var i := 0;
    while i < |targets|
      invariant 0 <= i <= |targets|
      invariant forall t :: CountOf(counts, t) == multiset(targets[..i])[t]
      invariant forall j :: 0 <= j < i ==> Hashable(targets[j])
    {
      var t := targets[i];
      if !Hashable(t) {
        return Err(TypeError("unhashable type"));
      }
      assert targets[..i + 1] == targets[..i] + [t];
      counts := counts[t := CountOf(counts, t) + 1];
      i := i + 1;
    }
    assert targets[..i] == targets;
    var itemize := set t | t in counts && counts[t] > 1;
    assert forall t :: t in itemize <==> t in Contested(targets) by {
      forall t ensures t in itemize <==> t in Contested(targets) {
        assert CountOf(counts, t) == multiset(targets)[t];
      }
    }
    r := Ok(itemize);
  }

  /** `_targets_to_itemize(references)` */
  method TargetsToItemize(refs: Fields) returns (r: Result<set<Json>>)
    ensures r.Ok? <==> RefTargets(refs).Ok? && forall t :: t in RefTargets(refs).value ==> Hashable(t)
    ensures r.Ok? ==> r.value == Contested(RefTargets(refs).value)
  {
    var targets :- RefTargets(refs);
    r := CountContested(targets);
  }
}
