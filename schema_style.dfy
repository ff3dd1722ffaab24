// The post-processing `_extract_schemas` applies to each generated class
// schema: `$id`, bindings and backrefs, the cleaned description with its
// link to the FHIR R5 page, the `resource_type` and `for` renames, and the
// rewriting of capitalised `type` values into `$ref: T.yaml`.

module SchemaStyle {

  import opened Text
  import opened Json
  import opened SchemaClassify
  import opened SchemaExtract
  import opened SchemaBindings

  /** The note the generator appends to every description. */
  const Disclaimer: string :=
    "Disclaimer: Any field name ends with ``__ext`` doesn't part of\nResource StructureDefinition, " +
    "instead used to enable Extensibility feature\nfor FHIR Primitive Data Types.\n"

  const ResourceTypeDescription: string := "One of the resource types defined as part of FHIR"

  const ForPrefix: string := "[Reserved word `for` renamed to `for_fhir`] "

  /** Paragraph breaks collapsed, the disclaimer removed, and the remaining
      line breaks turned into spaces. */
  function CleanDescription(d: string): (r: string)
    ensures '\n' !in r
  {
    var r := ReplaceChar(Replace(Replace(d, "\n\n", "\n"), Disclaimer, ""), '\n', ' ');
    assert forall i :: 0 <= i < |r| ==> r[i] != '\n';
    r
  }

  /** A one-line description without the disclaimer is kept as it is. */
  lemma CleanSingleLine(d: string)
    requires '\n' !in d
    ensures CleanDescription(d) == d
  {
    AbsentChar(d, "\n\n", '\n');
    ReplaceAbsent(d, "\n\n", "\n");
    assert Disclaimer[62] == '\n';
    AbsentChar(d, Disclaimer, '\n');
    ReplaceAbsent(d, Disclaimer, "");
    assert ReplaceChar(d, '\n', ' ') == d;
  }

  /** The link appended to every description; the older copy of the code
      omits the `.html` extension. */
  function SeeAlso(title: Json, html: bool): (r: string)
    ensures StartsWith(r, " [See https://hl7.org/fhir/R5/")
    ensures EndsWith(r, if html then ".html]" else "]")
  {
    var r := " [See https://hl7.org/fhir/R5/" + Format(title) + (if html then ".html" else "") + "]";
    assert r[..|" [See https://hl7.org/fhir/R5/"|] == " [See https://hl7.org/fhir/R5/";
    assert html ==> r[|r| - 6..] == ".html]";
    r
  }

  /** A property whose `type` begins with an upper-case letter. */
  predicate UpperTyped(p: Json)
  {
    p.Obj? && Get(p.fields, "type").Some? && FirstIsUpper(Get(p.fields, "type").value) == Ok(true)
  }

  /** A property whose `items.type` begins with an upper-case letter. */
  predicate ItemsUpperTyped(p: Json)
  {
    p.Obj? && Get(p.fields, "items").Some? && UpperTyped(Get(p.fields, "items").value)
  }

  /** `if p['type'][0].isupper(): p['$ref'] = f"{p['type']}.yaml"; del p['type']` */
  function RetypeProp(p: Json): (r: Result<Json>)
    ensures r.Ok? ==> !UpperTyped(r.value)
    ensures r.Ok? && !UpperTyped(p) ==> r.value == p
    ensures r.Ok? && UpperTyped(p) ==>
              r.value.Obj? && !Has(r.value.fields, "type") &&
              Get(r.value.fields, "$ref") == Some(Str(Format(Get(p.fields, "type").value) + ".yaml"))
    ensures r.Ok? && p.Obj? ==>
              r.value.Obj? && forall k :: k != "type" && k != "$ref" ==> Get(r.value.fields, k) == Get(p.fields, k)
    ensures p.Obj? ==> (r.Ok? <==> !Has(p.fields, "type") || FirstIsUpper(Get(p.fields, "type").value).Ok?)
  {
    var hasType :- InJ("type", p);
    if !hasType then Ok(p)
    else
      var t :- ObjIndex(p, "type");
      var up :- FirstIsUpper(t);
      if !up then Ok(p)
      else Ok(Obj(Del(Put(p.fields, "$ref", Str(Format(t) + ".yaml")), "type")))
  }

  /** Restyling a property twice is restyling it once. */
  lemma RetypePropIdempotent(p: Json)
    requires RetypeProp(p).Ok?
    ensures RetypeProp(RetypeProp(p).value) == RetypeProp(p)
  {
    var q := RetypeProp(p).value;
    if UpperTyped(p) {
      assert !Has(q.fields, "type");
    }
  }

  /** The same rewrite on `p['items']`. */
  function RetypeItems(p: Json): (r: Result<Json>)
    ensures r.Ok? ==> !ItemsUpperTyped(r.value)
    ensures r.Ok? && !ItemsUpperTyped(p) ==> r.value == p
    ensures r.Ok? && ItemsUpperTyped(p) ==>
              r.value.Obj? && Get(r.value.fields, "items") == Some(RetypeProp(Get(p.fields, "items").value).value)
    ensures r.Ok? && p.Obj? ==>
              r.value.Obj? && forall k :: k != "items" ==> Get(r.value.fields, k) == Get(p.fields, k)
  {
    var hasItems :- InJ("items", p);
    if !hasItems then Ok(p)
    else
      var items :- ObjIndex(p, "items");
      var hasType :- InJ("type", items);
      if !hasType then Ok(p)
      else
        var t :- ObjIndex(items, "type");
        var up :- FirstIsUpper(t);
        if !up then Ok(p)
        else
          Ok(Obj(Put(p.fields, "items", Obj(Del(Put(items.fields, "$ref", Str(Format(t) + ".yaml")), "type")))))
  }

  /** Restyling `items` leaves the property's own `type` alone. */
  lemma RetypeItemsKeepsType(p: Json)
    requires RetypeItems(p).Ok?
    ensures UpperTyped(RetypeItems(p).value) == UpperTyped(p)
  {
  }

  /** `properties['resourceType'] = properties['resource_type']`, with the
      fixed description, and `resource_type` removed. */
  function RenameResourceType(props: Fields): (r: Result<Fields>)
    ensures !Has(props, "resource_type") ==> r == Ok(props)
    ensures r.Ok? ==> !Has(r.value, "resource_type")
    ensures r.Ok? && Has(props, "resource_type") ==>
              Get(props, "resource_type").value.Obj? &&
              Get(r.value, "resourceType") == Some(Obj(Put(Get(props, "resource_type").value.fields, "description", Str(ResourceTypeDescription))))
    ensures r.Ok? ==> forall k :: k != "resource_type" && k != "resourceType" ==> Get(r.value, k) == Get(props, k)
    ensures r.Ok? <==> !Has(props, "resource_type") || Get(props, "resource_type").value.Obj?
    ensures r.Ok? && UniqueKeys(props) ==> UniqueKeys(r.value)
  {
    match Get(props, "resource_type")
    case None => Ok(props)
    case Some(v) =>
      if !v.Obj? then Err(TypeError("item assignment"))
      else Ok(Del(Put(props, "resourceType", Obj(Put(v.fields, "description", Str(ResourceTypeDescription)))), "resource_type"))
  }

  /** `properties['for_fhir']`: a copy of `for` whose description gains the
      reserved-word note; `for` removed. */
  function RenameFor(props: Fields): (r: Result<Fields>)
    ensures !Has(props, "for") ==> r == Ok(props)
    ensures r.Ok? ==> !Has(r.value, "for")
    ensures r.Ok? && Has(props, "for") ==>
              Get(props, "for").value.Obj? && StrAt(Get(props, "for").value.fields, "description").Ok? &&
              Get(r.value, "for_fhir") ==
                Some(Obj(Put(Get(props, "for").value.fields, "description",
                             Str(ForPrefix + StrAt(Get(props, "for").value.fields, "description").value))))
    ensures r.Ok? ==> forall k :: k != "for" && k != "for_fhir" ==> Get(r.value, k) == Get(props, k)
    ensures r.Ok? <==> !Has(props, "for") ||
                       (Get(props, "for").value.Obj? && StrAt(Get(props, "for").value.fields, "description").Ok?)
    ensures r.Ok? && UniqueKeys(props) ==> UniqueKeys(r.value)
  {
    match Get(props, "for")
    case None => Ok(props)
    case Some(v) =>
      if !v.Obj? then Err(TypeError("subscript"))
      else
        var d :- StrAt(v.fields, "description");
        Ok(Del(Put(props, "for_fhir", Obj(Put(v.fields, "description", Str(ForPrefix + d)))), "for"))
  }

  /** No property and no `items` keeps a capitalised `type`. */
  ghost predicate Styled(props: Fields)
  {
    forall kv :: kv in props ==> !UpperTyped(kv.1) && !ItemsUpperTyped(kv.1)
  }

  /** The body of the first loop, on one `(name, property)` entry. */
  function RetypeEntry(k: string, v: Json): (r: Result<Json>)
    ensures r == RetypeProp(v)
  {
    RetypeProp(v)
  }

  /** The body of the second loop, on one `(name, property)` entry. */
  function RetypeItemsEntry(k: string, v: Json): (r: Result<Json>)
    ensures r == RetypeItems(v)
  {
    RetypeItems(v)
  }

  /** Both rewrites applied to one property leave it styled. */
  lemma RetypedProp(v: Json)
    requires RetypeProp(v).Ok? && RetypeItems(RetypeProp(v).value).Ok?
    ensures !UpperTyped(RetypeItems(RetypeProp(v).value).value)
    ensures !ItemsUpperTyped(RetypeItems(RetypeProp(v).value).value)
  {
    RetypeItemsKeepsType(RetypeProp(v).value);
  }

  /** Both rewrites keep a dict property's `description`. */
  lemma RetypedDescription(v: Json)
    requires v.Obj? && RetypeProp(v).Ok? && RetypeItems(RetypeProp(v).value).Ok?
    ensures RetypeItems(RetypeProp(v).value).value.Obj?
    ensures Get(RetypeItems(RetypeProp(v).value).value.fields, "description") == Get(v.fields, "description")
  {
  }

  /** After both loops every property is styled and the keys are those
      before. */
  lemma RetypedStyled(p2: Fields, p3: Fields, p4: Fields)
    requires UniqueKeys(p2)
    requires MapValuesSpec(p2, RetypeEntry) == Ok(p3) && MapValuesSpec(p3, RetypeItemsEntry) == Ok(p4)
    ensures UniqueKeys(p4) && Styled(p4) && Keys(p4) == Keys(p2)
  {
    MapValuesKeys(p2, RetypeEntry);
    MapValuesKeys(p3, RetypeItemsEntry);
    SameKeysUnique(p2, p3);
    SameKeysUnique(p3, p4);
    forall kv | kv in p4 ensures !UpperTyped(kv.1) && !ItemsUpperTyped(kv.1) {
      var i :| 0 <= i < |p4| && p4[i] == kv;
      assert p3[i].1 == RetypeProp(p2[i].1).value;
      assert kv.1 == RetypeItems(p3[i].1).value;
      RetypedProp(p2[i].1);
    }
  }

  /** After both loops a dict property keeps its `description`. */
  lemma RetypedKeepsDescription(p2: Fields, p3: Fields, p4: Fields, k: string)
    requires UniqueKeys(p2)
    requires MapValuesSpec(p2, RetypeEntry) == Ok(p3) && MapValuesSpec(p3, RetypeItemsEntry) == Ok(p4)
    requires Has(p2, k) && Get(p2, k).value.Obj?
    ensures Get(p4, k).Some? && Get(p4, k).value.Obj?
    ensures Get(Get(p4, k).value.fields, "description") == Get(Get(p2, k).value.fields, "description")
  {
    MapValuesKeys(p2, RetypeEntry);
    SameKeysUnique(p2, p3);
    MapValuesGet(p2, RetypeEntry, k);
    MapValuesGet(p3, RetypeItemsEntry, k);
    RetypedDescription(Get(p2, k).value);
  }

  /** `resource_type` and `for` renamed, in that order. */
  function Renamed(props: Fields): (r: Result<Fields>)
    ensures r.Ok? && UniqueKeys(props) ==> UniqueKeys(r.value)
    ensures r.Ok? ==> !Has(r.value, "resource_type") && !Has(r.value, "for")
    ensures r.Ok? ==> forall k :: k != "resource_type" && k != "resourceType" && k != "for" && k != "for_fhir" ==>
                                  Get(r.value, k) == Get(props, k)
  {
    var p1 :- RenameResourceType(props);
    RenameFor(p1)
  }

  /** The renamed `resourceType` carries the fixed description. */
  lemma RenamedResourceType(props: Fields)
    requires Renamed(props).Ok? && Has(props, "resource_type")
    ensures var r := Renamed(props).value;
            Get(r, "resourceType").Some? && Get(r, "resourceType").value.Obj? &&
            Get(Get(r, "resourceType").value.fields, "description") == Some(Str(ResourceTypeDescription))
  {
    var p1 := RenameResourceType(props).value;
    assert Get(Renamed(props).value, "resourceType") == Get(p1, "resourceType");
  }

  /** `for_fhir`'s description starts with the reserved-word note. */
  lemma RenamedFor(props: Fields)
    requires Renamed(props).Ok? && Has(props, "for")
    ensures var r := Renamed(props).value;
            Get(r, "for_fhir").Some? && Get(r, "for_fhir").value.Obj? &&
            StrAt(Get(r, "for_fhir").value.fields, "description").Ok? &&
            StartsWith(StrAt(Get(r, "for_fhir").value.fields, "description").value, ForPrefix)
  {
    var p1 := RenameResourceType(props).value;
    assert Get(p1, "for") == Get(props, "for");
    var d := StrAt(Get(props, "for").value.fields, "description").value;
    assert (ForPrefix + d)[..|ForPrefix|] == ForPrefix;
  }

  /** The renames followed by the two `$ref` passes over the properties. */
  method StyleProps(props: Fields) returns (r: Result<Fields>)
    requires UniqueKeys(props)
    ensures r.Ok? ==> UniqueKeys(r.value) && Styled(r.value)
    ensures r.Ok? ==> !Has(r.value, "resource_type") && !Has(r.value, "for")
    ensures r.Ok? && Has(props, "resource_type") ==>
              Get(r.value, "resourceType").Some? && Get(r.value, "resourceType").value.Obj? &&
              Get(Get(r.value, "resourceType").value.fields, "description") == Some(Str(ResourceTypeDescription))
    ensures r.Ok? && Has(props, "for") ==>
              Get(r.value, "for_fhir").Some? && Get(r.value, "for_fhir").value.Obj? &&
              StrAt(Get(r.value, "for_fhir").value.fields, "description").Ok? &&
              StartsWith(StrAt(Get(r.value, "for_fhir").value.fields, "description").value, ForPrefix)
    ensures r.Ok? ==> forall k :: k != "resource_type" && k != "resourceType" && k != "for" && k != "for_fhir" ==>
                                  Has(r.value, k) == Has(props, k)
  {
    var p2 :- Renamed(props);
    var p3 :- MapValues(p2, RetypeEntry);
    var p4 :- MapValues(p3, RetypeItemsEntry);
    RetypedStyled(p2, p3, p4);
    if Has(props, "resource_type") {
      RenamedResourceType(props);
      RetypedKeepsDescription(p2, p3, p4, "resourceType");
    }
    if Has(props, "for") {
      RenamedFor(props);
      RetypedKeepsDescription(p2, p3, p4, "for_fhir");
    }
    forall k | k != "resource_type" && k != "resourceType" && k != "for" && k != "for_fhir"
      ensures Has(p4, k) == Has(props, k)
    {
      assert Has(p4, k) == Has(p2, k);
      assert Get(p2, k) == Get(props, k);
    }
    r := Ok(p4);
  }

  /** `$id`, bindings and backrefs: the first three steps of one iteration. */
  method Decorate(raw: Fields, elements: map<string, Json>) returns (r: Result<Fields>)
    requires PropsUnique(raw) && Has(raw, "title")
    ensures r.Ok? ==> PropsUnique(r.value) && PropsOf(r.value).Ok?
    ensures r.Ok? ==> Get(r.value, "$id") == Get(raw, "title")
    ensures r.Ok? ==> forall k :: k != "properties" && k != "$id" ==> Get(r.value, k) == Get(raw, k)
    ensures r.Ok? && PropsOf(raw).Ok? ==> Keys(PropsOf(r.value).value) == Keys(PropsOf(raw).value)
  {
    var s0 := Put(raw, "$id", Get(raw, "title").value);
    PutKeepsProps(raw, "$id", Get(raw, "title").value);
    var s1 :- DecorateBindings(s0, elements);
    r := DecorateBackrefs(s1);
  }

  /** The description cleaned and followed by the link to the class's page. */
  function Described(s: Fields, html: bool): (r: Result<Fields>)
    requires Has(s, "title")
    ensures r.Ok? <==> GetOr(s, "description", Str("")).Str?
    ensures r.Ok? ==> forall k :: k != "description" ==> Get(r.value, k) == Get(s, k)
    ensures r.Ok? ==> PropsOf(r.value) == PropsOf(s) && (PropsUnique(s) ==> PropsUnique(r.value))
    ensures r.Ok? ==>
              var see := SeeAlso(Get(s, "title").value, html);
              StrAt(r.value, "description").Ok? &&
              StrAt(r.value, "description").value == CleanDescription(GetOr(s, "description", Str("")).s) + see
  {
    var desc := GetOr(s, "description", Str(""));
    if !desc.Str? then Err(AttributeError("replace"))
    else
      var d := CleanDescription(desc.s) + SeeAlso(Get(s, "title").value, html);
      PutKeepsProps(s, "description", Str(d));
      Ok(Put(s, "description", Str(d)))
  }

  /** The described text has no line break before its link. */
  lemma DescribedOneLine(s: Fields, html: bool)
    requires Has(s, "title") && Described(s, html).Ok?
    ensures var see := SeeAlso(Get(s, "title").value, html);
            var d := StrAt(Described(s, html).value, "description").value;
            EndsWith(d, see) && '\n' !in d[..|d| - |see|]
  {
    var see := SeeAlso(Get(s, "title").value, html);
    var d := StrAt(Described(s, html).value, "description").value;
    var clean := CleanDescription(GetOr(s, "description", Str("")).s);
    assert d[|d| - |see|..] == see && d[..|d| - |see|] == clean;
  }

  /** The renames and `$ref` passes applied to the schema's properties. */
  method StyleSchema(s: Fields) returns (r: Result<Fields>)
    requires PropsUnique(s)
    ensures r.Ok? ==> forall k :: k != "properties" ==> Get(r.value, k) == Get(s, k)
    ensures r.Ok? ==>
              PropsOf(s).Ok? && PropsOf(r.value).Ok? && UniqueKeys(PropsOf(r.value).value) && Styled(PropsOf(r.value).value) &&
              !Has(PropsOf(r.value).value, "resource_type") && !Has(PropsOf(r.value).value, "for")
    ensures r.Ok? && Has(PropsOf(s).value, "resource_type") ==>
              var rt := Get(PropsOf(r.value).value, "resourceType");
              rt.Some? && rt.value.Obj? && Get(rt.value.fields, "description") == Some(Str(ResourceTypeDescription))
    ensures r.Ok? && Has(PropsOf(s).value, "for") ==>
              var ff := Get(PropsOf(r.value).value, "for_fhir");
              ff.Some? && ff.value.Obj? && StrAt(ff.value.fields, "description").Ok? &&
              StartsWith(StrAt(ff.value.fields, "description").value, ForPrefix)
  {
    var pj :- Index(s, "properties");
    if !pj.Obj? {
      return Err(AttributeError("values"));
    }
    assert PropsOf(s) == Ok(pj.fields);
    var props :- StyleProps(pj.fields);
    r := Ok(Put(s, "properties", Obj(props)));
    assert PropsOf(r.value) == Ok(props);
  }

  /** One iteration of `_extract_schemas`, on the schema `klass.schema()`
      generated for a class, given the binding rows for its title. `html`
      selects the current link format (`.html` appended) over the older one. */
  method ExtractSchema(raw: Fields, elements: map<string, Json>, html: bool) returns (r: Result<Fields>)
    requires PropsUnique(raw)
    ensures !Has(raw, "title") ==> r == Err(AssertionError("title"))
    ensures r.Ok? ==> Has(raw, "title") && Get(r.value, "$id") == Get(raw, "title") && Get(r.value, "title") == Get(raw, "title")
    ensures r.Ok? ==>
              var see := SeeAlso(Get(raw, "title").value, html);
              StrAt(r.value, "description").Ok? &&
              EndsWith(StrAt(r.value, "description").value, see) &&
              '\n' !in StrAt(r.value, "description").value[..|StrAt(r.value, "description").value| - |see|]
    ensures r.Ok? ==>
              PropsOf(r.value).Ok? && UniqueKeys(PropsOf(r.value).value) && Styled(PropsOf(r.value).value) &&
              !Has(PropsOf(r.value).value, "resource_type") && !Has(PropsOf(r.value).value, "for")
    ensures r.Ok? && PropsOf(raw).Ok? && Has(PropsOf(raw).value, "resource_type") ==>
              var rt := Get(PropsOf(r.value).value, "resourceType");
              rt.Some? && rt.value.Obj? && Get(rt.value.fields, "description") == Some(Str(ResourceTypeDescription))
    ensures r.Ok? && PropsOf(raw).Ok? && Has(PropsOf(raw).value, "for") ==>
              var ff := Get(PropsOf(r.value).value, "for_fhir");
              ff.Some? && ff.value.Obj? && StrAt(ff.value.fields, "description").Ok? &&
              StartsWith(StrAt(ff.value.fields, "description").value, ForPrefix)
  {
    if !Has(raw, "title") {
      return Err(AssertionError("title"));
    }
    var s2 :- Decorate(raw, elements);
    var s3 :- Described(s2, html);
    DescribedOneLine(s2, html);
    assert Get(s3, "$id") == Get(raw, "title") && Get(s3, "title") == Get(raw, "title");
    assert PropsOf(s3) == PropsOf(s2) && PropsUnique(s3);
    r := StyleSchema(s3);
    if r.Ok? {
      assert Get(r.value, "description") == Get(s3, "description");
      assert Get(r.value, "$id") == Get(s3, "$id") && Get(r.value, "title") == Get(s3, "title");
    }
  }

  /** The same iteration in the older copy of the code (`tools/schema`),
      whose link has no `.html`. */
  method ExtractSchemaTools(raw: Fields, elements: map<string, Json>) returns (r: Result<Fields>)
    requires PropsUnique(raw)
    ensures !Has(raw, "title") ==> r == Err(AssertionError("title"))
    ensures r.Ok? ==> Has(raw, "title") && Get(r.value, "$id") == Get(raw, "title")
    ensures r.Ok? ==> StrAt(r.value, "description").Ok? &&
                      EndsWith(StrAt(r.value, "description").value, SeeAlso(Get(raw, "title").value, false))
    ensures r.Ok? ==>
              PropsOf(r.value).Ok? && Styled(PropsOf(r.value).value) &&
              !Has(PropsOf(r.value).value, "resource_type") && !Has(PropsOf(r.value).value, "for")
    ensures r.Ok? && PropsOf(raw).Ok? && Has(PropsOf(raw).value, "for") ==>
              var ff := Get(PropsOf(r.value).value, "for_fhir");
              ff.Some? && ff.value.Obj? && StrAt(ff.value.fields, "description").Ok? &&
              StartsWith(StrAt(ff.value.fields, "description").value, ForPrefix)
  {
    r := ExtractSchema(raw, elements, false);
  }
}
