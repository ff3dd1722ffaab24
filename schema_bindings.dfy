// `_decorate_schema_bindings`: each property whose `{title}.{name}` element
// has a `binding` receives its strength, description, value-set URI and
// version.  The rows of the `element_bindings` table matching the title are
// a parameter (`elements`, keyed by element id).

module SchemaBindings {

  import opened Text
  import opened Json
  import opened SchemaClassify

  /** `d.get(k, None)`: the value or `null`. */
  function OrNull(o: Option<Json>): (r: Json)
    ensures o.Some? ==> r == o.value
    ensures o.None? ==> r == Null
  {
    match o
    case Some(v) => v
    case None => Null
  }

  /** `uri, version = uri.split('|')` when `'|' in uri`, else `(uri, None)`. */
  function SplitValueSet(uri: Json): (r: Result<(Json, Json)>)
    ensures uri.Str? && !Contains(uri.s, "|") ==> r == Ok((uri, Null))
    ensures uri.Str? ==> (r.Ok? <==> |Split(uri.s, "|")| <= 2)
    ensures uri.Str? && r.Ok? && r.value.1 != Null ==>
              r.value.0.Str? && r.value.1.Str? && uri.s == r.value.0.s + "|" + r.value.1.s
    ensures !(uri.Str? || uri.Obj? || uri.Arr?) ==> r.Err?
  {
    var bar :- InJ("|", uri);
    if !bar then Ok((uri, Null))
    else if !uri.Str? then Err(AttributeError("split"))
    else
      var parts := Split(uri.s, "|");
      if |parts| != 2 then Err(ValueError("unpack"))
      else
        JoinSplit(uri.s, "|");
        assert Join(parts, "|") == parts[0] + "|" + Join(parts[1..], "|");
        Ok((Str(parts[0]), Str(parts[1])))
  }

  /** `uri|version` with one bar splits back into its two parts. */
  lemma ValueSetRoundTrip(uri: string, version: string)
    requires '|' !in uri && '|' !in version
    ensures SplitValueSet(Str(uri + "|" + version)) == Ok((Str(uri), Str(version)))
  {
    SplitPair(uri, '|', version);
    IndexOfAfter(uri, '|', version);
    assert "|" == ['|'];
  }

  /** The binding annotations of one property `name`, or the property
      unchanged when it has no element with a binding. */
  function BindProp(klass: string, name: string, p: Json, elements: map<string, Json>): (r: Result<Json>)
    ensures klass + "." + name !in elements ==> r == Ok(p)
  {
    var key := klass + "." + name;
    if key !in elements then Ok(p)
    else
      var element := elements[key];
      var hasBinding :- InJ("binding", element);
      if !hasBinding then Ok(p)
      else
        var binding :- ObjIndex(element, "binding");
        var strength :- ObjGet(binding, "strength");
        var description := Get(binding.fields, "description");
        if !p.Obj? then Err(TypeError("item assignment"))
        else
          var p1 := Put(Put(p.fields, "binding_strength", OrNull(strength)), "binding_description", OrNull(description));
          match Get(binding.fields, "valueSet")
          case None => Ok(Obj(p1))
          case Some(uri) =>
            var (u, version) :- SplitValueSet(uri);
            Ok(Obj(Put(Put(p1, "binding_uri", u), "binding_version", version)))
  }

  /** The element of `name` carries a dict `binding`. */
  predicate HasBindingFor(klass: string, name: string, elements: map<string, Json>)
  {
    klass + "." + name in elements &&
    elements[klass + "." + name].Obj? &&
    Get(elements[klass + "." + name].fields, "binding").Some? &&
    Get(elements[klass + "." + name].fields, "binding").value.Obj?
  }

  function BindingOf(klass: string, name: string, elements: map<string, Json>): Fields
    requires HasBindingFor(klass, name, elements)
  {
    Get(elements[klass + "." + name].fields, "binding").value.fields
  }

  /** A property with a binding gains `binding_strength` and
      `binding_description`, taken from the binding or `null`, and every
      other key is kept. */
  lemma BindPropStrength(klass: string, name: string, p: Json, elements: map<string, Json>)
    requires p.Obj? && HasBindingFor(klass, name, elements)
    requires !Has(BindingOf(klass, name, elements), "valueSet")
    ensures BindProp(klass, name, p, elements).Ok?
    ensures var q := BindProp(klass, name, p, elements).value;
            var b := BindingOf(klass, name, elements);
            q.Obj? &&
            Get(q.fields, "binding_strength") == Some(OrNull(Get(b, "strength"))) &&
            Get(q.fields, "binding_description") == Some(OrNull(Get(b, "description"))) &&
            forall k :: k !in {"binding_strength", "binding_description"} ==> Get(q.fields, k) == Get(p.fields, k)
  {
  }

  /** A `uri|version` value set is split into `binding_uri` and
      `binding_version`. */
  lemma BindPropVersioned(klass: string, name: string, p: Json, elements: map<string, Json>, uri: string, version: string)
    requires p.Obj? && HasBindingFor(klass, name, elements)
    requires Get(BindingOf(klass, name, elements), "valueSet") == Some(Str(uri + "|" + version))
    requires '|' !in uri && '|' !in version
    ensures BindProp(klass, name, p, elements).Ok?
    ensures var q := BindProp(klass, name, p, elements).value;
            q.Obj? &&
            Get(q.fields, "binding_uri") == Some(Str(uri)) &&
            Get(q.fields, "binding_version") == Some(Str(version))
  {
    ValueSetRoundTrip(uri, version);
  }

  /** A value set without `|` is kept whole, with version `null`. */
  lemma BindPropUnversioned(klass: string, name: string, p: Json, elements: map<string, Json>, uri: string)
    requires p.Obj? && HasBindingFor(klass, name, elements)
    requires Get(BindingOf(klass, name, elements), "valueSet") == Some(Str(uri))
    requires '|' !in uri
    ensures BindProp(klass, name, p, elements).Ok?
    ensures var q := BindProp(klass, name, p, elements).value;
            q.Obj? &&
            Get(q.fields, "binding_uri") == Some(Str(uri)) &&
            Get(q.fields, "binding_version") == Some(Null)
  {
    AbsentChar(uri, "|", '|');
  }

  /** `_decorate_schema_bindings(schema)` with the matching rows given:
      the title is read first, so a schema without one raises KeyError;
      without rows the schema is then returned as it is; otherwise every
      property is passed through `BindProp`. */
  method DecorateBindings(schema: Fields, elements: map<string, Json>) returns (r: Result<Fields>)
    requires PropsUnique(schema)
    ensures !Has(schema, "title") ==> r == Err(KeyError("title"))
    ensures elements == map[] && Has(schema, "title") ==> r == Ok(schema)
    ensures r.Ok? && elements != map[] ==>
              Has(schema, "title") && Get(schema, "properties").Some? && Get(schema, "properties").value.Obj? &&
              var props := Get(schema, "properties").value.fields;
              var klass := Format(Get(schema, "title").value);
              MapValuesSpec(props, (k, v) => BindProp(klass, k, v, elements)).Ok? &&
              r.value == Put(schema, "properties", Obj(MapValuesSpec(props, (k, v) => BindProp(klass, k, v, elements)).value))
    ensures r.Ok? ==> PropsUnique(r.value)
    ensures r.Ok? ==> forall k :: k != "properties" ==> Get(r.value, k) == Get(schema, k)
    ensures r.Ok? && PropsOf(schema).Ok? ==>
              PropsOf(r.value).Ok? && Keys(PropsOf(r.value).value) == Keys(PropsOf(schema).value)
  {
    var title :- Index(schema, "title");
    var klass := Format(title);
    if elements == map[] {
      return Ok(schema);
    }
    var pj :- Index(schema, "properties");
    if !pj.Obj? {
      return Err(AttributeError("items"));
    }
    var props := pj.fields;
    var g := (k, v) => BindProp(klass, k, v, elements);
    var props2 :- MapValues(props, g);
    MapValuesKeys(props, g);
    SameKeysUnique(props, props2);
    PutProps(schema, props2);
    r := Ok(Put(schema, "properties", Obj(props2)));
  }
}
