// Flattening FHIR objects into table-friendly records: the `dict()`
// replacements the simplifier installs on the FHIR classes, and the helpers
// that merge a resource's extensions, primitives, codings, identifiers,
// references and sub-resources into one flat dictionary.

module SimplifierRender {

  import opened Text
  import opened Json

  /** A FHIR value as the renderers see it: a primitive, or a list of
      primitives, held as JSON; a list of FHIR objects; or a FHIR object of a
      named class with its set elements, keyed by their JSON names, in the
      order of the class's elements. */
  datatype Fhir =
    | Prim(value: Json)
    | Many(items: seq<Fhir>)
    | Model(kind: string, fields: seq<Elem>)

  /** A set element of a FHIR object: its JSON name and its value. */
  datatype Elem = Elem(name: string, val: Fhir)

  /** An element that is not set (`None`). */
  const Unset: Fhir := Prim(Null)

  function Size(x: Fhir): (r: nat)
    ensures r >= 1
    decreases x
  {
    match x
    case Prim(_) => 1
    case Many(xs) => 1 + SizeAll(xs)
    case Model(_, fs) => 2 + SizeFields(fs)
  }

  function SizeAll(xs: seq<Fhir>): (r: nat)
    ensures forall i :: 0 <= i < |xs| ==> Size(xs[i]) <= r
    decreases xs
  {
    if xs == [] then 0
    else
      assert xs[0] in xs;
      Size(xs[0]) + SizeAll(xs[1..])
  }

  function SizeFields(fs: seq<Elem>): (r: nat)
    ensures forall i :: 0 <= i < |fs| ==> Size(fs[i].val) <= r
    decreases fs
  {
    if fs == [] then 0
    else
      assert fs[0] in fs;
      Size(fs[0].val) + SizeFields(fs[1..])
  }

  function FieldIn(fs: seq<Elem>, k: string): (r: Fhir)
    ensures Size(r) <= SizeFields(fs) + 1
    ensures r == Unset || exists i :: 0 <= i < |fs| && fs[i] == Elem(k, r)
  {
    if fs == [] then Unset
    else if fs[0].name == k then fs[0].val
    else
      var r := FieldIn(fs[1..], k);
      assert r != Unset ==> exists i :: 0 <= i < |fs| && fs[i] == Elem(k, r) by {
        if r != Unset {
          var i :| 0 <= i < |fs[1..]| && fs[1..][i] == Elem(k, r);
          assert fs[i + 1] == Elem(k, r);
        }
      }
      r
  }

  /** `self.k`: the element's value, `None` when it is not set. */
  function Field(x: Fhir, k: string): (r: Fhir)
    ensures x.Model? ==> Size(r) < Size(x)
  {
    if x.Model? then FieldIn(x.fields, k) else Unset
  }

  /** A string element, `None` when it is not set. */
  function StrField(x: Fhir, k: string): (r: Option<string>)
  {
    match Field(x, k)
    case Prim(Str(s)) => Some(s)
    case _ => None
  }

  /** How an f-string shows an optional string. */
  function Shown(o: Option<string>): string
  {
    if o.Some? then o.value else "None"
  }

  function OptJson(o: Option<string>): (r: Json)
    ensures o.Some? ==> r == Str(o.value)
    ensures o.None? ==> r == Null
  {
    if o.Some? then Str(o.value) else Null
  }

  /** A string that is set and not empty. */
  predicate Nonempty(o: Option<string>)
  {
    o.Some? && o.value != ""
  }

  /** Python truthiness of an element value; a FHIR object is always true. */
  predicate FhirTruthy(v: Fhir)
  {
    match v
    case Prim(j) => Truthy(j)
    case Many(xs) => xs != []
    case Model(_, _) => true
  }

  /** The items of a list element; a value that is not a list has none. */
  function ItemsOf(v: Fhir): (r: seq<Fhir>)
    ensures SizeAll(r) + 1 <= Size(v)
    ensures forall i :: 0 <= i < |r| ==> Size(r[i]) < Size(v)
  {
    if v.Many? then v.items else []
  }

  /** A FHIR value left as it is inside a rendered record: an object is
      shown as the dictionary of its set elements. */
  function Raw(v: Fhir): Json
    decreases v
  {
    match v
    case Prim(j) => j
    case Many(xs) => Arr(RawAll(xs))
    case Model(_, fs) => Obj(RawFields(fs))
  }

  function RawAll(xs: seq<Fhir>): seq<Json>
    decreases xs
  {
    if xs == [] then [] else assert xs[0] in xs; [Raw(xs[0])] + RawAll(xs[1..])
  }

  function RawFields(fs: seq<Elem>): Fields
    decreases fs
  {
    if fs == [] then [] else assert fs[0] in fs; [(fs[0].name, Raw(fs[0].val))] + RawFields(fs[1..])
  }

  // ---------------------------------------------------------------------
  // What rendering leaves behind besides its value

  /** The references appended to the thread-local accumulator and the
      messages handed to `_debug_once`, in the order they happen. */
  datatype Trace = Trace(refs: seq<Option<string>>, debug: seq<Json>)

  const Quiet: Trace := Trace([], [])

  function Plus(a: Trace, b: Trace): Trace
  {
    Trace(a.refs + b.refs, a.debug + b.debug)
  }

  datatype Out = Out(value: Json, trace: Trace)

  /** `get_oid(oid)`: a name for an OID and the lookup's content; it is
      outside this model and given as a parameter. */
  type Oid = string -> (Json, Json)

  // ---------------------------------------------------------------------
  // Codings

  /** `f"{self.system}#{self.code}"` */
  function CodeText(c: Fhir): string
  {
    Shown(StrField(c, "system")) + "#" + Shown(StrField(c, "code"))
  }

  /** The display, or the code when the display is empty or not set. */
  function DisplayOf(c: Fhir): (r: Json)
    ensures Nonempty(StrField(c, "display")) ==> r == Str(StrField(c, "display").value)
    ensures !Nonempty(StrField(c, "display")) ==> r == OptJson(StrField(c, "code"))
  {
    var display := StrField(c, "display");
    if Nonempty(display) then Str(display.value) else OptJson(StrField(c, "code"))
  }

  /** `_simple_coding_dict`: the coded value named `coding`, then the display. */
  function SimpleCoding(c: Fhir): (r: Json)
  {
    Arr([Obj([("__value__", Str(CodeText(c))), ("__name__", Str("coding"))]),
         Obj([("__value__", DisplayOf(c))])])
  }

  /** The rendered codings, one flat list. */
  function Flatten(cs: seq<Fhir>): (r: seq<Json>)
    ensures |r| == 2 * |cs|
  {
    if cs == [] then [] else SimpleCoding(cs[0]).items + Flatten(cs[1..])
  }

  /** `_.get('__name__', None) == 'coding'` */
  predicate NamedCoding(e: Json)
  {
    e.Obj? && Get(e.fields, "__name__") == Some(Str("coding"))
  }

  /** `_['__value__']` of a rendered entry. */
  function ValueOf(e: Json): Json
  {
    if e.Obj? && Has(e.fields, "__value__") then At(e.fields, "__value__") else Null
  }

  /** What one entry contributes to the coded values. */
  function CodingHead(e: Json): seq<Json>
  {
    if NamedCoding(e) then [ValueOf(e)] else []
  }

  /** What one entry contributes to the displays. */
  function PlainHead(e: Json): seq<Json>
  {
    if e.Obj? && !Has(e.fields, "__name__") then [ValueOf(e)] else []
  }

  /** What each entry contributes, run together in entry order. */
  function Gather(es: seq<Json>, head: Json -> seq<Json>): seq<Json>
  {
    if es == [] then [] else head(es[0]) + Gather(es[1..], head)
  }

  /** `[_['__value__'] for _ in codings if _.get('__name__', None) == 'coding']` */
  function CodingValues(es: seq<Json>): seq<Json>
  {
    Gather(es, CodingHead)
  }

  /** `[_['__value__'] for _ in codings if '__name__' not in _]` */
  function PlainValues(es: seq<Json>): seq<Json>
  {
    Gather(es, PlainHead)
  }

  /** `_simple_codeable_concept_dict`: the text, when there is one, then the
      coded values and the displays of the codings. */
  function SimpleConcept(x: Fhir): (r: Json)
  {
    var text := StrField(x, "text");
    var head := if Nonempty(text) then [Obj([("__value__", Arr([Str(text.value)])), ("__name__", Str("text"))])] else [];
    var coding := Field(x, "coding");
    if coding == Unset then Arr(head)
    else
      var es := Flatten(ItemsOf(coding));
      Arr(head + [Obj([("__value__", Arr(CodingValues(es))), ("__name__", Str("coding"))]),
                  Obj([("__value__", Arr(PlainValues(es)))])])
  }

  // ---------------------------------------------------------------------
  // Identifiers

  /** The message `_debug_once` receives when an OID lookup finds nothing. */
  function OidFailed(what: string, content: Json): Json
  {
    Arr([Str("get_oid failed"), Str(what), content])
  }

  /** `_ensure_identifier_system`: a name for the identifier's system. */
  function EnsureSystem(x: Fhir, oid: Oid): (r: (Json, seq<Json>))
  {
    var system := StrField(x, "system");
    if !Nonempty(system) then (Str(""), [])
    else
      var s := system.value;
      if Contains(s, "urn:oid") then
        var (name, content) := oid(LastPiece(s, "urn:oid:"));
        if Truthy(name) then (name, []) else (Str(""), [OidFailed(s, content)])
      else if Contains(s, "urn:ietf:rfc:3986") then (Str("uri"), [])
      else
        var name := ReplaceChar(LastPiece(s, "/"), '-', '_');
        (Str(name), [])
  }

  /** `_ensure_identifier_value`: the value, or the name its OID resolves to. */
  function EnsureValue(x: Fhir, oid: Oid): (r: (Json, seq<Json>))
  {
    var value := StrField(x, "value");
    if Nonempty(value) && Contains(value.value, "urn:oid") then
      var (v, content) := oid(LastPiece(value.value, "urn:oid:"));
      if Truthy(v) then (v, []) else (Str(value.value), [OidFailed(value.value, content)])
    else (OptJson(value), [])
  }

  /** `_simple_identifier_dict` as (name, value) entries: `name#value`,
      `system#value` and, when the type has codings, the first one's code. */
  function IdentifierEntries(x: Fhir, oid: Oid): (r: (seq<(string, Json)>, seq<Json>))
  {
    var (name, d1) := EnsureSystem(x, oid);
    var (value, d2) := EnsureValue(x, oid);
    var base := [("identifier", Str(Format(name) + "#" + Format(value))),
                 ("identifier_coding", Str(Shown(StrField(x, "system")) + "#" + Shown(StrField(x, "value"))))];
    var t := Field(x, "type");
    var cs := ItemsOf(Field(t, "coding"));
    var extra := if FhirTruthy(t) && cs != [] then [("identifier_text_coding", Str(CodeText(cs[0])))] else [];
    (base + extra, d1 + d2)
  }

  /** An entry as the dictionary the renderer builds; the third entry lists
      its name first. */
  function EntryObj(i: nat, e: (string, Json)): Json
  {
    if i < 2 then Obj([("__value__", e.1), ("__name__", Str(e.0))])
    else Obj([("__name__", Str(e.0)), ("__value__", e.1)])
  }

  /** `_simple_identifier_dict` */
  function SimpleIdentifier(x: Fhir, oid: Oid): (r: Out)
  {
    var (es, debug) := IdentifierEntries(x, oid);
    Out(Arr(seq(|es|, i requires 0 <= i < |es| => EntryObj(i, es[i]))), Trace([], debug))
  }

  /** `[_['__value__'] for _ in rendered_identifiers if _['__name__'] == k]` */
  function ValuesNamed(es: seq<(string, Json)>, k: string): (r: seq<Json>)
  {
    if es == [] then []
    else (if es[0].0 == k then [es[0].1] else []) + ValuesNamed(es[1..], k)
  }

  /** `for k in keys: identifiers[k] = [...]` */
  function GroupFrom(keys: seq<string>, es: seq<(string, Json)>, acc: Fields): (r: Fields)
  {
    if keys == [] then acc
    else GroupFrom(keys[1..], es, Put(acc, keys[0], Arr(ValuesNamed(es, keys[0]))))
  }

  function IdentifiersFrom(items: seq<Fhir>, oid: Oid): (r: (seq<(string, Json)>, seq<Json>))
  {
    if items == [] then ([], [])
    else
      var (es, d) := IdentifierEntries(items[0], oid);
      var (rest, d') := IdentifiersFrom(items[1..], oid);
      (es + rest, d + d')
  }

  function EntryNames(es: seq<(string, Json)>): (r: seq<string>)
    ensures |r| == |es| && forall i :: 0 <= i < |es| ==> r[i] == es[i].0
  {
    seq(|es|, i requires 0 <= i < |es| => es[i].0)
  }

  /** `_render_identifiers`: each rendered name with the list of its values. */
  function RenderIdentifiers(x: Fhir, oid: Oid): (r: (Fields, Trace))
  {
    var v := Field(x, "identifier");
    if !FhirTruthy(v) then ([], Quiet)
    else
      var items := if v.Many? then v.items else [v];
      var (es, debug) := IdentifiersFrom(items, oid);
      (GroupFrom(EntryNames(es), es, []), Trace([], debug))
  }

  // ---------------------------------------------------------------------
  // References and primitives

  /** `_simple_reference_dict`: the reference string, which is also
      appended to the accumulator. */
  function SimpleReference(x: Fhir): (r: Out)
    ensures r.trace == Trace([StrField(x, "reference")], [])
  {
    var ref := StrField(x, "reference");
    Out(Obj([("__value__", OptJson(ref))]), Trace([ref], []))
  }

  predicate IsReference(v: Fhir)
  {
    v.Model? && v.kind == "Reference"
  }

  /** The loop of `_render_references` from an element on. */
  function ReferencesFrom(fs: seq<Elem>, acc: Fields, refs: seq<Option<string>>): (r: (Fields, seq<Option<string>>))
  {
    if fs == [] then (acc, refs)
    else if IsReference(fs[0].val) then
      var ref := StrField(fs[0].val, "reference");
      ReferencesFrom(fs[1..], Put(acc, fs[0].name, OptJson(ref)), refs + [ref])
    else ReferencesFrom(fs[1..], acc, refs)
  }

  /** `_render_references`: each element holding one Reference, by its name. */
  function RenderReferences(x: Fhir): (r: (Fields, Trace))
  {
    var (f, refs) := ReferencesFrom(if x.Model? then x.fields else [], [], []);
    (f, Trace(refs, []))
  }

  /** A set element of a primitive type. */
  predicate IsPrimitive(v: Fhir)
  {
    v != Unset && v.Prim?
  }

  /** The loop of `_render_primitives` from an element on. */
  function PrimitivesFrom(fs: seq<Elem>, acc: Fields): (r: Fields)
  {
    if fs == [] then acc
    else if IsPrimitive(fs[0].val) then PrimitivesFrom(fs[1..], Put(acc, fs[0].name, fs[0].val.value))
    else PrimitivesFrom(fs[1..], acc)
  }

  /** `_render_primitives`: the set primitive elements, then the resource
      type unless an element already gave one. */
  function RenderPrimitives(x: Fhir): (r: Fields)
    requires x.Model?
    ensures Has(r, "resourceType")
  {
    var f := PrimitivesFrom(x.fields, []);
    if Has(f, "resourceType") then f else Put(f, "resourceType", Str(x.kind))
  }

  // ---------------------------------------------------------------------
  // Extensions

  /** The values kept after `_render_extensions`' clean-up. */
  predicate KeptValue(v: Json)
  {
    v != Null && v != Arr([])
  }

  /** `{k: v for k, v in extensions.items() if (v is not None and v != [])}` */
  function DropEmpty(f: Fields): (r: Fields)
    ensures forall i :: 0 <= i < |r| ==> KeptValue(r[i].1)
    ensures forall kv :: kv in r <==> kv in f && KeptValue(kv.1)
  {
    if f == [] then []
    else if KeptValue(f[0].1) then [f[0]] + DropEmpty(f[1..])
    else DropEmpty(f[1..])
  }

  /** `d[k].extend(v)`: the stored value must be a list, `v` iterable. */
  function ExtendAt(acc: Fields, k: string, v: Json): (r: Result<Fields>)
    requires Has(acc, k)
    ensures r.Ok? ==> Keys(r.value) == Keys(acc)
  {
    var cur := At(acc, k);
    if !cur.Arr? then Err(AttributeError("extend"))
    else
      var vs :- Iterate(v);
      Ok(Put(acc, k, Arr(cur.items + vs)))
  }

  /** `for k, v in item.items(): extensions[f"{prefix}{k}"] = v` */
  function PutPrefixed(acc: Fields, prefix: string, f: Fields): (r: Fields)
    ensures forall k :: Has(acc, k) ==> Has(r, k)
    decreases |f|
  {
    if f == [] then acc
    else
      var next := Put(acc, prefix + f[0].0, f[0].1);
      assert forall k :: Has(acc, k) ==> Has(next, k) by {
        forall k | Has(acc, k) ensures Has(next, k) {
          if k != prefix + f[0].0 { assert Get(next, k) == Get(acc, k); }
        }
      }
      PutPrefixed(next, prefix, f[1..])
  }

  /** The list stored under a name becomes its only element. */
  function Collapse(acc: Fields, k: string): (r: Result<Fields>)
    requires Has(acc, k)
  {
    var n :- Len(At(acc, k));
    if n == 1 then
      var first :- First(At(acc, k));
      Ok(Put(acc, k, first))
    else Ok(acc)
  }

  /** One item of an extension's value list. */
  function ExtensionItem(acc: Fields, name: Json, item: Json): (r: Result<Fields>)
  {
    if !name.Str? then Err(TypeError("extension names are strings"))
    else if !item.Obj? then Ok(Put(acc, name.s, item))
    else
      var f := item.fields;
      var compound := if Has(f, "__name__") then name.s + "_" + Format(At(f, "__name__")) else name.s;
      var compound := ReplaceChar(compound, '-', '_');
      var acc := if Has(acc, compound) then acc else Put(acc, compound, Arr([]));
      var acc :- if Has(f, "__value__") then ExtendAt(acc, compound, At(f, "__value__"))
                 else Ok(PutPrefixed(acc, compound + "_", f));
      Collapse(acc, compound)
  }

  function ExtensionItems(acc: Fields, name: Json, items: seq<Json>): (r: Result<Fields>)
    decreases |items|
  {
    if items == [] then Ok(acc)
    else
      var next :- ExtensionItem(acc, name, items[0]);
      ExtensionItems(next, name, items[1..])
  }

  /** One rendered extension merged into the accumulated extensions. */
  function ExtensionInto(acc: Fields, d: Json): (r: Result<Fields>)
  {
    if !Truthy(d) then Ok(acc)
    else
      var v :- Subscript(d, Str("__value__"));
      var items := if v.Arr? then v.items else [v];
      var name :- Subscript(d, Str("__name__"));
      ExtensionItems(acc, name, items)
  }

  // ---------------------------------------------------------------------
  // Codings of a resource

  /** The classes `_render_codings` renders. */
  predicate CodingKind(v: Fhir)
  {
    v.Model? && (v.kind == "CodeableConcept" || v.kind == "Coding" || v.kind == "CodeableReference")
  }

  /** The name one rendered entry of a coding element is stored under:
      the element's name, followed by the entry's `__name__` when it has one. */
  function EntryName(k: string, e: Json): (r: Result<string>)
  {
    var named :- InJ("__name__", e);
    if named then
      var n :- Subscript(e, Str("__name__"));
      Ok(ReplaceChar(k + "_" + Format(n), '-', '_'))
    else Ok(ReplaceChar(k, '-', '_'))
  }

  /** `codings[c].extend(e['__value__'])`, then the first value of a single
      element's list. */
  function ExtendEntry(acc: Fields, c: string, e: Json, scalar: bool): (r: Result<Fields>)
  {
    var acc := if Has(acc, c) then acc else Put(acc, c, Arr([]));
    var cur := At(acc, c);
    if !cur.Arr? then Err(AttributeError("extend"))
    else
      var v :- Subscript(e, Str("__value__"));
      var vs :- Iterate(v);
      var all := cur.items + vs;
      if !scalar then Ok(Put(acc, c, Arr(all)))
      else if all == [] then Err(IndexError("list index out of range"))
      else Ok(Put(acc, c, all[0]))
  }

  /** One rendered entry of a coding element merged into `codings`. */
  function CodingEntry(k: string, e: Json, scalar: bool, acc: Fields): (r: Result<Fields>)
  {
    var c :- EntryName(k, e);
    ExtendEntry(acc, c, e, scalar)
  }

  function CodingEntries(k: string, es: seq<Json>, scalar: bool, acc: Fields): (r: Result<Fields>)
  {
    if es == [] then Ok(acc)
    else
      var next :- CodingEntry(k, es[0], scalar, acc);
      CodingEntries(k, es[1..], scalar, next)
  }

  // ---------------------------------------------------------------------
  // Sub-resources

  /** The fixed configuration of `_render_sub_resources`: the list element
      and the properties of its first item that are kept. */
  function SubConfig(kind: string): Option<(string, seq<string>)>
  {
    if kind == "DocumentReference" then Some(("content", ["contentType", "md5", "size", "url"]))
    else if kind == "Patient" then Some(("address", ["postalCode"]))
    else None
  }

  /** `if k in properties: simplified[f"{name}_{k}"] = v` over a rendered item. */
  function Picked(prefix: string, props: seq<string>, f: Fields, acc: Fields): (r: Fields)
  {
    if f == [] then acc
    else Picked(prefix, props, f[1..], if f[0].0 in props then Put(acc, prefix + f[0].0, f[0].1) else acc)
  }

  // ---------------------------------------------------------------------
  // The `dict()` of each FHIR class

  /** `resource.dict()` with the simplifier's replacements installed. */
  function Dict(x: Fhir, oid: Oid): (r: Result<Out>)
    decreases Size(x), 3
  {
    match x
    case Model(kind, _) =>
      if kind == "Coding" then Ok(Out(SimpleCoding(x), Quiet))
      else if kind == "CodeableConcept" then Ok(Out(SimpleConcept(x), Quiet))
      else if kind == "CodeableReference" then SimpleCodeableReference(x, oid)
      else if kind == "Identifier" then Ok(SimpleIdentifier(x, oid))
      else if kind == "Reference" then Ok(SimpleReference(x))
      else if kind == "Extension" then SimpleExtension(x, oid)
      else if kind == "Attachment" then SimpleAttachment(x, oid)
      else if kind == "DocumentReferenceContent" then SimpleContent(x, oid)
      else if kind == "Observation" then SimpleObservation(x, oid)
      else if kind == "Task" then SimpleTask(x, oid)
      else
        var r :- ResourceDict(x, oid);
        Ok(Out(Obj(r.0), r.1))
    case _ => Err(AttributeError("dict"))
  }

  /** `_simple_codeable_reference_dict`: the reference as a one-item list,
      then the concept's entries. */
  function SimpleCodeableReference(x: Fhir, oid: Oid): (r: Result<Out>)
    requires x.Model?
    decreases Size(x), 2
  {
    var ref := Field(x, "reference");
    var head :- if FhirTruthy(ref) then
                  (var d :- Dict(ref, oid);
                   var v :- ObjIndex(d.value, "__value__");
                   Ok(([Obj(Put(d.value.fields, "__value__", Arr([v])))], d.trace)))
                else Ok(([], Quiet));
    var concept := Field(x, "concept");
    var tail :- if FhirTruthy(concept) then
                  (var d :- Dict(concept, oid);
                   var vs :- Iterate(d.value);
                   Ok((vs, d.trace)))
                else Ok(([], Quiet));
    Ok(Out(Arr(head.0 + tail.0), Plus(head.1, tail.1)))
  }

  /** The first set `value[x]` element of an extension. */
  function ExtensionValue(fs: seq<Elem>): (r: Option<Fhir>)
    ensures r.Some? ==> Size(r.value) <= SizeFields(fs)
  {
    if fs == [] then None
    else if StartsWith(fs[0].name, "value") && fs[0].val != Unset then Some(fs[0].val)
    else ExtensionValue(fs[1..])
  }

  /** `_simple_extension_dict`: the value, rendered when it is a FHIR object,
      named after the last segment of the url; `None` without a value. */
  function SimpleExtension(x: Fhir, oid: Oid): (r: Result<Out>)
    requires x.Model?
    decreases Size(x), 2
  {
    match ExtensionValue(x.fields)
    case None => Ok(Out(Null, Quiet))
    case Some(v) =>
      var url := StrField(x, "url");
      var name := if Nonempty(url) then Some(LastPiece(url.value, "/")) else url;
      if name.None? then Err(AttributeError("'NoneType' object has no attribute 'replace'"))
      else
        var n := ReplaceChar(name.value, '-', '_');
        var d :- if v.Model? then Dict(v, oid) else Ok(Out(Raw(v), Quiet));
        Ok(Out(Obj([("__value__", d.value)] + (if n != "" then [("__name__", Str(n))] else [])), d.trace))
  }

  /** `_simple_attachment_dict`: extensions, then primitives. */
  function SimpleAttachment(x: Fhir, oid: Oid): (r: Result<Out>)
    requires x.Model?
    decreases Size(x), 2
  {
    var e :- RenderExtensions(x, oid);
    Ok(Out(Obj(Update(e.0, RenderPrimitives(x))), e.1))
  }

  /** `_simple_document_reference_content_dict`: extensions, primitives, then
      the attachment's entries. */
  function SimpleContent(x: Fhir, oid: Oid): (r: Result<Out>)
    requires x.Model?
    decreases Size(x), 2
  {
    var e :- RenderExtensions(x, oid);
    var f := Update(e.0, RenderPrimitives(x));
    var att := Field(x, "attachment");
    if !att.Model? then Err(AttributeError("'NoneType' object has no attribute 'dict'"))
    else
      var d :- Dict(att, oid);
      if !d.value.Obj? then Err(ValueError("dictionary update sequence"))
      else Ok(Out(Obj(Update(f, d.value.fields)), Plus(e.1, d.trace)))
  }

  const LabCategory: Json := Arr([Str("laboratory")])
  const LabCoding: Json := Arr([Str("http://terminology.hl7.org/CodeSystem/observation-category#laboratory")])

  /** `_simple_observation_dict`: a resource whose category defaults to
      laboratory. */
  function SimpleObservation(x: Fhir, oid: Oid): (r: Result<Out>)
    requires x.Model?
    ensures r.Ok? ==> r.value.value.Obj? && Has(r.value.value.fields, "category")
    decreases Size(x), 2
  {
    var res :- ResourceDict(x, oid);
    var f := res.0;
    if !Has(f, "category") || At(f, "category") == Arr([Null]) then
      Ok(Out(Obj(Put(Put(f, "category", LabCategory), "category_coding", LabCoding)), res.1))
    else Ok(Out(Obj(f), res.1))
  }

  /** `_simple_task_dict`: a resource, whose outputs are rendered only for the
      references they hold. */
  function SimpleTask(x: Fhir, oid: Oid): (r: Result<Out>)
    requires x.Model?
    decreases Size(x), 2
  {
    var res :- ResourceDict(x, oid);
    var output := Field(x, "output");
    if !output.Many? then Err(TypeError("'NoneType' object is not iterable"))
    else
      var t :- OutputsFrom(output.items, oid);
      Ok(Out(Obj(res.0), Plus(res.1, t)))
  }

  function OutputsFrom(items: seq<Fhir>, oid: Oid): (r: Result<Trace>)
    decreases SizeAll(items) + 1, 0, |items|
  {
    if items == [] then Ok(Quiet)
    else
      var d :- Dict(items[0], oid);
      var rest :- OutputsFrom(items[1..], oid);
      Ok(Plus(d.trace, rest))
  }

  /** `_simple_resource_dict`: extensions, primitives, codings, identifiers,
      references and sub-resources merged in that order. */
  function ResourceDict(x: Fhir, oid: Oid): (r: Result<(Fields, Trace)>)
    requires x.Model?
    decreases Size(x), 1
  {
    var e :- RenderExtensions(x, oid);
    var p := RenderPrimitives(x);
    var c :- RenderCodings(x, oid);
    var i := RenderIdentifiers(x, oid);
    var rf := RenderReferences(x);
    var s :- RenderSubResources(x, oid);
    var f := Update(Update(Update(Update(Update(e.0, p), c.0), i.0), rf.0), s.0);
    Ok((f, Plus(Plus(Plus(Plus(e.1, c.1), i.1), rf.1), s.1)))
  }

  /** `_render_extensions`: each extension's value under its name, lists of
      one collapsed to their element, empty values dropped. */
  function RenderExtensions(x: Fhir, oid: Oid): (r: Result<(Fields, Trace)>)
    requires x.Model?
    ensures r.Ok? ==> forall i :: 0 <= i < |r.value.0| ==> KeptValue(r.value.0[i].1)
    decreases Size(x), 0
  {
    var e := Field(x, "extension");
    if !FhirTruthy(e) then Ok(([], Quiet))
    else
      var acc :- ExtensionsFrom(ItemsOf(e), oid, [], Quiet);
      Ok((DropEmpty(acc.0), acc.1))
  }

  /** The loop of `_render_extensions` from an extension on. */
  function ExtensionsFrom(items: seq<Fhir>, oid: Oid, acc: Fields, t: Trace): (r: Result<(Fields, Trace)>)
    decreases SizeAll(items) + 1, 0, |items|
  {
    if items == [] then Ok((acc, t))
    else
      var d :- Dict(items[0], oid);
      var next :- ExtensionInto(acc, d.value);
      ExtensionsFrom(items[1..], oid, next, Plus(t, d.trace))
  }

  /** `_render_codings`: the entries of every coding element, lists for list
      elements and first values for single ones. */
  function RenderCodings(x: Fhir, oid: Oid): (r: Result<(Fields, Trace)>)
    requires x.Model?
    decreases Size(x), 0
  {
    CodingsFrom(x.fields, oid, [], Quiet)
  }

  /** The loop of `_render_codings` from an element on. */
  function CodingsFrom(fs: seq<Elem>, oid: Oid, acc: Fields, t: Trace): (r: Result<(Fields, Trace)>)
    decreases SizeFields(fs) + 1, 1, |fs|
  {
    if fs == [] then Ok((acc, t))
    else
      var k := fs[0].name;
      var v := fs[0].val;
      var vs := if v.Many? then v.items else [v];
      if v == Unset || vs == [] || !CodingKind(vs[0]) then CodingsFrom(fs[1..], oid, acc, t)
      else
        assert SizeAll(vs) <= Size(v) by { if !v.Many? { assert vs[1..] == []; } }
        var step :- CodingItems(k, vs, !v.Many?, oid, acc, t);
        CodingsFrom(fs[1..], oid, step.0, step.1)
  }

  /** The items of one coding element, each rendered and merged. */
  function CodingItems(k: string, vs: seq<Fhir>, scalar: bool, oid: Oid, acc: Fields, t: Trace): (r: Result<(Fields, Trace)>)
    decreases SizeAll(vs) + 1, 0, |vs|
  {
    if vs == [] then Ok((acc, t))
    else
      var d :- Dict(vs[0], oid);
      var es := if d.value.Arr? then d.value.items else [d.value];
      var next :- CodingEntries(k, es, scalar, acc);
      CodingItems(k, vs[1..], scalar, oid, next, Plus(t, d.trace))
  }

  /** `_render_sub_resources`: chosen properties of the first content item of
      a DocumentReference, or of the first address of a Patient. */
  function RenderSubResources(x: Fhir, oid: Oid): (r: Result<(Fields, Trace)>)
    requires x.Model?
    decreases Size(x), 0
  {
    match SubConfig(x.kind)
    case None => Ok(([], Quiet))
    case Some((name, props)) =>
      var items := ItemsOf(Field(x, name));
      if items == [] then Ok(([], Quiet))
      else
        var d :- Dict(items[0], oid);
        if !d.value.Obj? then Err(AttributeError("items"))
        else Ok((Picked(name + "_", props, d.value.fields, []), d.trace))
  }

  // ---------------------------------------------------------------------
  // Properties of the renderers

  /** `s.replace('-', '_')` leaves a string without `-` as it is. */
  lemma NoDash(s: string)
    requires '-' !in s
    ensures ReplaceChar(s, '-', '_') == s
  {
  }

  lemma GetPair(k1: string, v1: Json, k2: string, v2: Json, k: string)
    ensures Get([(k1, v1), (k2, v2)], k) == if k == k1 then Some(v1) else if k == k2 then Some(v2) else None
  {
    assert [(k1, v1), (k2, v2)] == [(k1, v1)] + [(k2, v2)];
    GetCons(k1, v1, [(k2, v2)], k);
    GetCons(k2, v2, [], k);
    assert [(k2, v2)] == [(k2, v2)] + [];
  }

  /** One value per coding, in coding order. */
  function PerCoding(cs: seq<Fhir>, f: Fhir -> Json): (r: seq<Json>)
    ensures |r| == |cs| && forall i :: 0 <= i < |cs| ==> r[i] == f(cs[i])
  {
    seq(|cs|, i requires 0 <= i < |cs| => f(cs[i]))
  }

  lemma PerCodingCons(cs: seq<Fhir>, f: Fhir -> Json)
    requires cs != []
    ensures PerCoding(cs, f) == [f(cs[0])] + PerCoding(cs[1..], f)
  {
    var a, b := PerCoding(cs, f), [f(cs[0])] + PerCoding(cs[1..], f);
    forall i | 0 <= i < |a| ensures a[i] == b[i] {
      if i > 0 {
        assert b[i] == PerCoding(cs[1..], f)[i - 1] && cs[1..][i - 1] == cs[i];
      }
    }
    assert a == b;
  }

  function CodeEntry(c: Fhir): Json
  {
    Str(CodeText(c))
  }

  /** The coded values of codings, in coding order. */
  function Codes(cs: seq<Fhir>): (r: seq<Json>)
    ensures |r| == |cs| && forall i :: 0 <= i < |cs| ==> r[i] == Str(CodeText(cs[i]))
  {
    PerCoding(cs, CodeEntry)
  }

  /** The displays of codings, in coding order. */
  function Displays(cs: seq<Fhir>): (r: seq<Json>)
    ensures |r| == |cs| && forall i :: 0 <= i < |cs| ==> r[i] == DisplayOf(cs[i])
  {
    PerCoding(cs, DisplayOf)
  }

  lemma {:induction false} GatherAppend(a: seq<Json>, b: seq<Json>, head: Json -> seq<Json>)
    ensures Gather(a + b, head) == Gather(a, head) + Gather(b, head)
    decreases |a|
  {
    if a == [] {
      assert a + b == b;
    } else {
      var ab := a + b;
      assert ab[0] == a[0] && ab[1..] == a[1..] + b;
      GatherAppend(a[1..], b, head);
    }
  }

  lemma CodingValuesAppend(a: seq<Json>, b: seq<Json>)
    ensures CodingValues(a + b) == CodingValues(a) + CodingValues(b)
  {
    GatherAppend(a, b, CodingHead);
  }

  lemma PlainValuesAppend(a: seq<Json>, b: seq<Json>)
    ensures PlainValues(a + b) == PlainValues(a) + PlainValues(b)
  {
    GatherAppend(a, b, PlainHead);
  }

  /** The two entries a coding renders to: the coded value is picked out as
      a `coding` value, the display as a value without a name. */
  lemma CodingEntryValues(c: Fhir)
    ensures CodingValues(SimpleCoding(c).items) == [Str(CodeText(c))]
    ensures PlainValues(SimpleCoding(c).items) == [DisplayOf(c)]
  {
    var e1 := Obj([("__value__", Str(CodeText(c))), ("__name__", Str("coding"))]);
    var e2 := Obj([("__value__", DisplayOf(c))]);
    GetPair("__value__", Str(CodeText(c)), "__name__", Str("coding"), "__name__");
    GetPair("__value__", Str(CodeText(c)), "__name__", Str("coding"), "__value__");
    assert NamedCoding(e1) && ValueOf(e1) == Str(CodeText(c));
    assert Has(e1.fields, "__name__");
    assert Get(e2.fields, "__name__") == None by { GetCons("__value__", DisplayOf(c), [], "__name__"); }
    assert Get(e2.fields, "__value__") == Some(DisplayOf(c)) by { GetCons("__value__", DisplayOf(c), [], "__value__"); }
    var es := SimpleCoding(c).items;
    assert es == [e1, e2];
    assert es[1..] == [e2] && es[1..][1..] == [];
    assert CodingHead(e1) == [ValueOf(e1)] && CodingHead(e2) == [];
    assert PlainHead(e1) == [] && PlainHead(e2) == [ValueOf(e2)];
    assert CodingValues([e2]) == CodingHead(e2) + CodingValues([]);
    assert CodingValues(es) == CodingHead(e1) + CodingValues([e2]);
    assert PlainValues([e2]) == PlainHead(e2) + PlainValues([]);
    assert PlainValues(es) == PlainHead(e1) + PlainValues([e2]);
  }

  /** Flattening the rendered codings and picking out the entries named
      `coding`, and those without a name, gives the coded values and the
      displays in coding order. */
  lemma {:induction false} ConceptValues(cs: seq<Fhir>)
    ensures CodingValues(Flatten(cs)) == Codes(cs)
    ensures PlainValues(Flatten(cs)) == Displays(cs)
    decreases |cs|
  {
    ConceptCodes(cs);
    ConceptDisplays(cs);
  }

  lemma FlattenCons(cs: seq<Fhir>)
    requires cs != []
    ensures Flatten(cs) == SimpleCoding(cs[0]).items + Flatten(cs[1..])
  {
  }

  lemma CodesCons(cs: seq<Fhir>)
    requires cs != []
    ensures Codes(cs) == [Str(CodeText(cs[0]))] + Codes(cs[1..])
  {
    PerCodingCons(cs, CodeEntry);
  }

  lemma DisplaysCons(cs: seq<Fhir>)
    requires cs != []
    ensures Displays(cs) == [DisplayOf(cs[0])] + Displays(cs[1..])
  {
    PerCodingCons(cs, DisplayOf);
  }

  lemma {:induction false} ConceptCodes(cs: seq<Fhir>)
    ensures CodingValues(Flatten(cs)) == Codes(cs)
    decreases |cs|
  {
    if cs != [] {
      ConceptCodes(cs[1..]);
      CodingEntryValues(cs[0]);
      FlattenCons(cs);
      CodesCons(cs);
      CodingValuesAppend(SimpleCoding(cs[0]).items, Flatten(cs[1..]));
    }
  }

  lemma {:induction false} ConceptDisplays(cs: seq<Fhir>)
    ensures PlainValues(Flatten(cs)) == Displays(cs)
    decreases |cs|
  {
    if cs != [] {
      ConceptDisplays(cs[1..]);
      CodingEntryValues(cs[0]);
      FlattenCons(cs);
      DisplaysCons(cs);
      PlainValuesAppend(SimpleCoding(cs[0]).items, Flatten(cs[1..]));
    }
  }

  /** The entry a concept's text renders to. */
  function TextEntry(text: string): Json
  {
    Obj([("__value__", Arr([Str(text)])), ("__name__", Str("text"))])
  }

  /** A CodeableConcept renders its text, when it has one, then the coded
      values of its codings named `coding`, then their displays. */
  lemma ConceptRendered(x: Fhir, oid: Oid)
    requires x.Model? && x.kind == "CodeableConcept" && Field(x, "coding").Many?
    ensures var cs := Field(x, "coding").items;
            var text := StrField(x, "text");
            Dict(x, oid) == Ok(Out(Arr((if Nonempty(text) then [TextEntry(text.value)] else [])
                                       + [Obj([("__value__", Arr(Codes(cs))), ("__name__", Str("coding"))]),
                                          Obj([("__value__", Arr(Displays(cs)))])]), Quiet))
  {
    ConceptValues(Field(x, "coding").items);
  }

  /** A Coding with a system, a code and maybe a display renders as
      `system#code` named `coding`, then the display, or the code when the
      display is missing or empty. */
  lemma CodingRendered(system: string, code: string, display: Option<string>, oid: Oid)
    ensures var c := Model("Coding", [Elem("system", Prim(Str(system))), Elem("code", Prim(Str(code)))]
                                     + (if display.Some? then [Elem("display", Prim(Str(display.value)))] else []));
            Dict(c, oid) == Ok(Out(Arr([Obj([("__value__", Str(system + "#" + code)), ("__name__", Str("coding"))]),
                                        Obj([("__value__", Str(if Nonempty(display) then display.value else code))])]), Quiet))
  {
    var fs := [Elem("system", Prim(Str(system))), Elem("code", Prim(Str(code)))]
              + (if display.Some? then [Elem("display", Prim(Str(display.value)))] else []);
    assert fs[1..][0] == Elem("code", Prim(Str(code)));
    assert FieldIn(fs, "system") == Prim(Str(system));
    assert FieldIn(fs, "code") == Prim(Str(code));
    if display.Some? {
      assert fs[1..][1..][0] == Elem("display", Prim(Str(display.value)));
      assert FieldIn(fs[1..][1..], "display") == Prim(Str(display.value));
      assert FieldIn(fs[1..], "display") == FieldIn(fs[1..][1..], "display");
    } else {
      assert fs[1..][1..] == [];
      assert FieldIn(fs[1..], "display") == FieldIn(fs[1..][1..], "display");
    }
  }

  /** One named entry merged by `_render_codings` under a new name. */
  lemma NamedEntryStep(k: string, nm: string, v: Json, scalar: bool, acc: Fields)
    requires '-' !in k + "_" + nm && !Has(acc, k + "_" + nm)
    requires Iterate(v).Ok? && (scalar ==> Iterate(v).value != [])
    ensures var vals := Iterate(v).value;
            CodingEntry(k, Obj([("__value__", v), ("__name__", Str(nm))]), scalar, acc)
            == Ok(Put(acc, k + "_" + nm, if scalar then vals[0] else Arr(vals)))
  {
    var vals := Iterate(v).value;
    var c := k + "_" + nm;
    GetPair("__value__", v, "__name__", Str(nm), "__name__");
    GetPair("__value__", v, "__name__", Str(nm), "__value__");
    NoDash(c);
    assert [] + vals == vals;
    PutTwice(acc, c, Arr([]), if scalar then vals[0] else Arr(vals));
  }

  /** One entry without a name merged by `_render_codings` under a new name. */
  lemma PlainEntryStep(k: string, v: Json, scalar: bool, acc: Fields)
    requires '-' !in k && !Has(acc, k)
    requires Iterate(v).Ok? && (scalar ==> Iterate(v).value != [])
    ensures var vals := Iterate(v).value;
            CodingEntry(k, Obj([("__value__", v)]), scalar, acc)
            == Ok(Put(acc, k, if scalar then vals[0] else Arr(vals)))
  {
    var vals := Iterate(v).value;
    GetCons("__value__", v, [], "__name__");
    GetCons("__value__", v, [], "__value__");
    NoDash(k);
    assert [] + vals == vals;
    PutTwice(acc, k, Arr([]), if scalar then vals[0] else Arr(vals));
  }

  /** The entries of a rendered value merged one at a time. */
  lemma EntriesCons(k: string, e: Json, rest: seq<Json>, scalar: bool, acc: Fields)
    requires CodingEntry(k, e, scalar, acc).Ok?
    ensures CodingEntries(k, [e] + rest, scalar, acc) == CodingEntries(k, rest, scalar, CodingEntry(k, e, scalar, acc).value)
  {
    assert ([e] + rest)[1..] == rest;
  }

  lemma EntriesOne(k: string, e: Json, scalar: bool, acc: Fields)
    ensures CodingEntries(k, [e], scalar, acc) == CodingEntry(k, e, scalar, acc)
  {
    assert [e][1..] == [];
  }

  /** A record whose only element holds a single coding value. */
  lemma SingleCodings(k: string, v: Fhir, oid: Oid)
    requires CodingKind(v)
    ensures CodingsFrom([Elem(k, v)], oid, [], Quiet) == CodingItems(k, [v], true, oid, [], Quiet)
  {
    assert [Elem(k, v)][1..] == [];
  }

  /** A record whose only element holds a list of coding values. */
  lemma ListCodings(k: string, xs: seq<Fhir>, oid: Oid)
    requires xs != [] && CodingKind(xs[0])
    ensures CodingsFrom([Elem(k, Many(xs))], oid, [], Quiet) == CodingItems(k, xs, false, oid, [], Quiet)
  {
    assert [Elem(k, Many(xs))][1..] == [];
  }

  /** One item of a coding element, rendered and merged. */
  lemma ItemsOne(k: string, v: Fhir, scalar: bool, oid: Oid, acc: Fields)
    requires Dict(v, oid).Ok? && Dict(v, oid).value.value.Arr?
    ensures CodingItems(k, [v], scalar, oid, acc, Quiet)
            == (var e :- CodingEntries(k, Dict(v, oid).value.value.items, scalar, acc);
                Ok((e, Dict(v, oid).value.trace)))
  {
    assert [v][1..] == [];
    var d := Dict(v, oid).value;
    assert Plus(Quiet, d.trace) == d.trace;
  }

  /** Different suffixes make different names. */
  lemma SuffixesDiffer(k: string, a: string, b: string)
    requires a != b && |a| == |b|
    ensures k + a != k + b
  {
    var i :| 0 <= i < |a| && a[i] != b[i];
    assert (k + a)[|k| + i] == a[i];
    assert (k + b)[|k| + i] == b[i];
  }

  /** The entry of the coded values of a concept. */
  function CodedEntry(cs: seq<Fhir>): Json
  {
    Obj([("__value__", Arr(Codes(cs))), ("__name__", Str("coding"))])
  }

  /** The entry of the displays of a concept. */
  function DisplayEntry(cs: seq<Fhir>): Json
  {
    Obj([("__value__", Arr(Displays(cs)))])
  }

  lemma NamesDiffer(k: string)
    ensures k + "_text" != k + "_coding" && k + "_text" != k && k + "_coding" != k
  {
    var kt, kc := k + "_text", k + "_coding";
    assert kt[|k| + 1] == 't' && kc[|k| + 1] == 'c';
    assert |kt| != |k| && |kc| != |k|;
  }

  /** Three new keys stored in turn. */
  lemma ThreePuts(k1: string, v1: Json, k2: string, v2: Json, k3: string, v3: Json)
    requires k1 != k2 && k1 != k3 && k2 != k3
    ensures var f := Put(Put(Put([], k1, v1), k2, v2), k3, v3);
            Keys(f) == [k1, k2, k3] && Get(f, k1) == Some(v1) && Get(f, k2) == Some(v2) && Get(f, k3) == Some(v3)
  {
    TwoPuts(k1, v1, k2, v2);
    var a2 := [(k1, v1), (k2, v2)];
    assert Keys(a2) == [k1, k2] by {
      assert a2[1..] == [(k2, v2)];
    }
    assert Get(a2, k1) == Some(v1) && Get(a2, k2) == Some(v2) by {
      GetCons(k1, v1, [(k2, v2)], k2);
      assert a2 == [(k1, v1)] + [(k2, v2)];
    }
    assert [k1, k2] + [k3] == [k1, k2, k3];
  }

  /** The text entry of a concept merged under `k_text`. */
  lemma TextStep(k: string, text: string, scalar: bool, acc: Fields)
    requires '-' !in k && !Has(acc, k + "_text")
    ensures CodingEntry(k, TextEntry(text), scalar, acc)
            == Ok(Put(acc, k + "_text", if scalar then Str(text) else Arr([Str(text)])))
  {
    assert k + "_" + "text" == k + "_text";
    NamedEntryStep(k, "text", Arr([Str(text)]), scalar, acc);
  }

  /** The coded values of a concept merged under a new `k_coding`. */
  lemma CodedStep(k: string, cs: seq<Fhir>, scalar: bool, acc: Fields)
    requires '-' !in k && !Has(acc, k + "_coding") && (scalar ==> cs != [])
    ensures CodingEntry(k, CodedEntry(cs), scalar, acc)
            == Ok(Put(acc, k + "_coding", if scalar then Codes(cs)[0] else Arr(Codes(cs))))
  {
    assert k + "_" + "coding" == k + "_coding";
    NamedEntryStep(k, "coding", Arr(Codes(cs)), scalar, acc);
  }

  /** The displays of a concept merged under a new `k`. */
  lemma DisplayStep(k: string, cs: seq<Fhir>, scalar: bool, acc: Fields)
    requires '-' !in k && !Has(acc, k) && (scalar ==> cs != [])
    ensures CodingEntry(k, DisplayEntry(cs), scalar, acc)
            == Ok(Put(acc, k, if scalar then Displays(cs)[0] else Arr(Displays(cs))))
  {
    PlainEntryStep(k, Arr(Displays(cs)), scalar, acc);
  }

  /** Three entries merged one after the other. */
  lemma EntriesThree(k: string, t: Json, c: Json, d: Json, scalar: bool, acc: Fields, a1: Fields, a2: Fields, a3: Fields)
    requires CodingEntry(k, t, scalar, acc) == Ok(a1)
    requires CodingEntry(k, c, scalar, a1) == Ok(a2)
    requires CodingEntry(k, d, scalar, a2) == Ok(a3)
    ensures CodingEntries(k, [t, c, d], scalar, acc) == Ok(a3)
  {
    EntriesCons(k, t, [c, d], scalar, acc);
    assert [t, c, d] == [t] + [c, d];
    EntriesCons(k, c, [d], scalar, a1);
    assert [c, d] == [c] + [d];
    EntriesOne(k, d, scalar, a2);
  }

  /** The three entries of a concept with text, merged as scalars. */
  lemma ScalarConceptEntries(k: string, text: string, cs: seq<Fhir>)
    requires '-' !in k && cs != []
    ensures CodingEntries(k, [TextEntry(text), CodedEntry(cs), DisplayEntry(cs)], true, [])
            == Ok(Put(Put(Put([], k + "_text", Str(text)), k + "_coding", Codes(cs)[0]), k, Displays(cs)[0]))
  {
    var kt, kc := k + "_text", k + "_coding";
    NamesDiffer(k);
    TextStep(k, text, true, []);
    var a1 := Put([], kt, Str(text));
    assert Keys(a1) == [kt];
    CodedStep(k, cs, true, a1);
    var a2 := Put(a1, kc, Codes(cs)[0]);
    assert Keys(a2) == [kt, kc];
    DisplayStep(k, cs, true, a2);
    EntriesThree(k, TextEntry(text), CodedEntry(cs), DisplayEntry(cs), true, [], a1, a2, Put(a2, k, Displays(cs)[0]));
  }

  /** A single CodeableConcept element `k` renders as three scalars: its
      text under `k_text`, its first coded value under `k_coding` and its
      first display under `k`. */
  lemma ScalarConceptField(kind: string, k: string, text: string, cs: seq<Fhir>, oid: Oid)
    requires '-' !in k && text != "" && cs != []
    ensures var concept := Model("CodeableConcept", [Elem("text", Prim(Str(text))), Elem("coding", Many(cs))]);
            var f := RenderCodings(Model(kind, [Elem(k, concept)]), oid);
            f.Ok? && f.value.1 == Quiet
            && Keys(f.value.0) == [k + "_text", k + "_coding", k]
            && Get(f.value.0, k + "_text") == Some(Str(text))
            && Get(f.value.0, k + "_coding") == Some(Str(CodeText(cs[0])))
            && Get(f.value.0, k) == Some(DisplayOf(cs[0]))
  {
    var fs := [Elem("text", Prim(Str(text))), Elem("coding", Many(cs))];
    var concept := Model("CodeableConcept", fs);
    assert fs[1..][0] == Elem("coding", Many(cs)) && fs[1..][1..] == [];
    assert Field(concept, "coding") == Many(cs) by { assert FieldIn(fs, "coding") == FieldIn(fs[1..], "coding"); }
    assert StrField(concept, "text") == Some(text);
    ConceptRendered(concept, oid);
    var t, c, d := TextEntry(text), CodedEntry(cs), DisplayEntry(cs);
    assert [t] + [c, d] == [t, c, d];
    assert Dict(concept, oid) == Ok(Out(Arr([t, c, d]), Quiet));
    SingleCodings(k, concept, oid);
    ItemsOne(k, concept, true, oid, []);
    ScalarConceptEntries(k, text, cs);
    NamesDiffer(k);
    ThreePuts(k + "_text", Str(text), k + "_coding", Codes(cs)[0], k, Displays(cs)[0]);
  }

  /** Two entries merged one after the other. */
  lemma EntriesTwo(k: string, c: Json, d: Json, scalar: bool, acc: Fields, a1: Fields, a2: Fields)
    requires CodingEntry(k, c, scalar, acc) == Ok(a1)
    requires CodingEntry(k, d, scalar, a1) == Ok(a2)
    ensures CodingEntries(k, [c, d], scalar, acc) == Ok(a2)
  {
    EntriesCons(k, c, [d], scalar, acc);
    assert [c, d] == [c] + [d];
    EntriesOne(k, d, scalar, a1);
  }

  /** Two new keys stored in turn. */
  lemma TwoPuts(k1: string, v1: Json, k2: string, v2: Json)
    requires k1 != k2
    ensures Put(Put([], k1, v1), k2, v2) == [(k1, v1), (k2, v2)]
  {
    assert Put([], k1, v1) == [(k1, v1)];
    assert !Has([(k1, v1)], k2);
  }

  /** The coded value of a Coding merged as a scalar: its first character. */
  lemma CodeCharStep(k: string, ct: string)
    requires '-' !in k && ct != []
    ensures CodingEntry(k, Obj([("__value__", Str(ct)), ("__name__", Str("coding"))]), true, [])
            == Ok(Put([], k + "_coding", Str([ct[0]])))
  {
    assert k + "_" + "coding" == k + "_coding";
    NamedEntryStep(k, "coding", Str(ct), true, []);
  }

  /** The display of a Coding merged as a scalar: its first character. */
  lemma DisplayCharStep(k: string, display: string, acc: Fields)
    requires '-' !in k && display != [] && !Has(acc, k)
    ensures CodingEntry(k, Obj([("__value__", Str(display))]), true, acc) == Ok(Put(acc, k, Str([display[0]])))
  {
    PlainEntryStep(k, Str(display), true, acc);
  }

  /** The two entries of a Coding merged as scalars. */
  lemma ScalarCodingEntries(k: string, ct: string, display: string)
    requires '-' !in k && ct != [] && display != []
    ensures CodingEntries(k, [Obj([("__value__", Str(ct)), ("__name__", Str("coding"))]), Obj([("__value__", Str(display))])], true, [])
            == Ok([(k + "_coding", Str([ct[0]])), (k, Str([display[0]]))])
  {
    var kc := k + "_coding";
    NamesDiffer(k);
    CodeCharStep(k, ct);
    var a1 := Put([], kc, Str([ct[0]]));
    assert Keys(a1) == [kc];
    DisplayCharStep(k, display, a1);
    TwoPuts(kc, Str([ct[0]]), k, Str([display[0]]));
    EntriesTwo(k, Obj([("__value__", Str(ct)), ("__name__", Str("coding"))]), Obj([("__value__", Str(display))]),
               true, [], a1, Put(a1, k, Str([display[0]])));
  }

  /** A single Coding element `k` is reduced to the first character of its
      coded value under `k_coding` and to the first character of its display
      under `k`, since a string extends a list by its characters. */
  lemma ScalarCodingField(kind: string, k: string, c: Fhir, oid: Oid)
    requires '-' !in k && c.Model? && c.kind == "Coding" && Nonempty(StrField(c, "display"))
    ensures var f := RenderCodings(Model(kind, [Elem(k, c)]), oid);
            var display := StrField(c, "display").value;
            f.Ok? && f.value.1 == Quiet
            && f.value.0 == [(k + "_coding", Str([CodeText(c)[0]])), (k, Str([display[0]]))]
  {
    var display := StrField(c, "display").value;
    var ct := CodeText(c);
    assert |ct| > 0 by { assert ct[|Shown(StrField(c, "system"))|] == '#'; }
    assert Dict(c, oid) == Ok(Out(Arr([Obj([("__value__", Str(ct)), ("__name__", Str("coding"))]), Obj([("__value__", Str(display))])]), Quiet));
    SingleCodings(k, c, oid);
    ItemsOne(k, c, true, oid, []);
    ScalarCodingEntries(k, ct, display);
  }

  /** A CodeableConcept with codings and no text. */
  function ConceptOf(cs: seq<Fhir>): Fhir
  {
    Model("CodeableConcept", [Elem("coding", Many(cs))])
  }

  function Concepts(css: seq<seq<Fhir>>): (r: seq<Fhir>)
    ensures |r| == |css| && forall i :: 0 <= i < |css| ==> r[i] == ConceptOf(css[i])
  {
    seq(|css|, i requires 0 <= i < |css| => ConceptOf(css[i]))
  }

  /** The coded values of several concepts, concept by concept. */
  function AllCodes(css: seq<seq<Fhir>>): seq<Json>
  {
    if css == [] then [] else Codes(css[0]) + AllCodes(css[1..])
  }

  /** The displays of several concepts, concept by concept. */
  function AllDisplays(css: seq<seq<Fhir>>): seq<Json>
  {
    if css == [] then [] else Displays(css[0]) + AllDisplays(css[1..])
  }

  lemma ConceptOfRendered(cs: seq<Fhir>, oid: Oid)
    ensures Dict(ConceptOf(cs), oid) == Ok(Out(Arr([CodedEntry(cs), DisplayEntry(cs)]), Quiet))
  {
    var x := ConceptOf(cs);
    assert x.fields[1..] == [];
    assert Field(x, "coding") == Many(cs);
    assert StrField(x, "text") == None by { assert FieldIn(x.fields, "text") == FieldIn([], "text"); }
    ConceptRendered(x, oid);
    assert [] + [CodedEntry(cs), DisplayEntry(cs)] == [CodedEntry(cs), DisplayEntry(cs)];
  }

  /** The two lists `_render_codings` keeps for a list element `k`. */
  function Lists(k: string, codes: seq<Json>, displays: seq<Json>): Fields
  {
    [(k + "_coding", Arr(codes)), (k, Arr(displays))]
  }

  lemma ListsGet(k: string, codes: seq<Json>, displays: seq<Json>)
    ensures Get(Lists(k, codes, displays), k + "_coding") == Some(Arr(codes))
    ensures Get(Lists(k, codes, displays), k) == Some(Arr(displays))
  {
    NamesDiffer(k);
    GetPair(k + "_coding", Arr(codes), k, Arr(displays), k + "_coding");
    GetPair(k + "_coding", Arr(codes), k, Arr(displays), k);
  }

  /** A named entry appended to the list already stored under its name. */
  lemma NamedExtendStep(k: string, nm: string, v: Json, acc: Fields, prev: seq<Json>)
    requires '-' !in k + "_" + nm && Get(acc, k + "_" + nm) == Some(Arr(prev)) && Iterate(v).Ok?
    ensures CodingEntry(k, Obj([("__value__", v), ("__name__", Str(nm))]), false, acc)
            == Ok(Put(acc, k + "_" + nm, Arr(prev + Iterate(v).value)))
  {
    GetPair("__value__", v, "__name__", Str(nm), "__name__");
    GetPair("__value__", v, "__name__", Str(nm), "__value__");
    NoDash(k + "_" + nm);
  }

  /** An entry without a name appended to the list already stored under `k`. */
  lemma PlainExtendStep(k: string, v: Json, acc: Fields, prev: seq<Json>)
    requires '-' !in k && Get(acc, k) == Some(Arr(prev)) && Iterate(v).Ok?
    ensures CodingEntry(k, Obj([("__value__", v)]), false, acc) == Ok(Put(acc, k, Arr(prev + Iterate(v).value)))
  {
    GetCons("__value__", v, [], "__name__");
    GetCons("__value__", v, [], "__value__");
    NoDash(k);
  }

  /** Storing under the two keys of a two-key dictionary. */
  lemma PutFirst(k1: string, v1: Json, k2: string, v2: Json, v: Json)
    requires k1 != k2
    ensures Put([(k1, v1), (k2, v2)], k1, v) == [(k1, v), (k2, v2)]
  {
    var f := [(k1, v1), (k2, v2)];
    assert Keys(f) == [k1, k2];
    assert f[1..] == [(k2, v2)];
  }

  lemma PutSecond(k1: string, v1: Json, k2: string, v2: Json, v: Json)
    requires k1 != k2
    ensures Put([(k1, v1), (k2, v2)], k2, v) == [(k1, v1), (k2, v)]
  {
    var f := [(k1, v1), (k2, v2)];
    assert Keys(f) == [k1, k2];
    assert f[1..] == [(k2, v2)] && f[1..][1..] == [];
    assert SetAt(f[1..], k2, v) == [(k2, v)];
  }

  /** The coded values of one more concept appended. */
  lemma ExtendCodes(k: string, cs: seq<Fhir>, codes: seq<Json>, displays: seq<Json>)
    requires '-' !in k
    ensures CodingEntry(k, CodedEntry(cs), false, Lists(k, codes, displays)) == Ok(Lists(k, codes + Codes(cs), displays))
  {
    var kc := k + "_coding";
    assert k + "_" + "coding" == kc;
    NamesDiffer(k);
    ListsGet(k, codes, displays);
    NamedExtendStep(k, "coding", Arr(Codes(cs)), Lists(k, codes, displays), codes);
    PutFirst(kc, Arr(codes), k, Arr(displays), Arr(codes + Codes(cs)));
  }

  /** The displays of one more concept appended. */
  lemma ExtendDisplays(k: string, cs: seq<Fhir>, codes: seq<Json>, displays: seq<Json>)
    requires '-' !in k
    ensures CodingEntry(k, DisplayEntry(cs), false, Lists(k, codes, displays)) == Ok(Lists(k, codes, displays + Displays(cs)))
  {
    NamesDiffer(k);
    ListsGet(k, codes, displays);
    PlainExtendStep(k, Arr(Displays(cs)), Lists(k, codes, displays), displays);
    PutSecond(k + "_coding", Arr(codes), k, Arr(displays), Arr(displays + Displays(cs)));
  }

  /** The entries of one more concept appended to both lists. */
  lemma ExtendLists(k: string, cs: seq<Fhir>, codes: seq<Json>, displays: seq<Json>)
    requires '-' !in k
    ensures CodingEntries(k, [CodedEntry(cs), DisplayEntry(cs)], false, Lists(k, codes, displays))
            == Ok(Lists(k, codes + Codes(cs), displays + Displays(cs)))
  {
    ExtendCodes(k, cs, codes, displays);
    ExtendDisplays(k, cs, codes + Codes(cs), displays);
    EntriesTwo(k, CodedEntry(cs), DisplayEntry(cs), false, Lists(k, codes, displays),
               Lists(k, codes + Codes(cs), displays), Lists(k, codes + Codes(cs), displays + Displays(cs)));
  }

  /** The entries of the first concept start both lists. */
  lemma StartLists(k: string, cs: seq<Fhir>)
    requires '-' !in k
    ensures CodingEntries(k, [CodedEntry(cs), DisplayEntry(cs)], false, []) == Ok(Lists(k, Codes(cs), Displays(cs)))
  {
    var kc := k + "_coding";
    NamesDiffer(k);
    CodedStep(k, cs, false, []);
    var a1 := Put([], kc, Arr(Codes(cs)));
    assert Keys(a1) == [kc];
    DisplayStep(k, cs, false, a1);
    TwoPuts(kc, Arr(Codes(cs)), k, Arr(Displays(cs)));
    EntriesTwo(k, CodedEntry(cs), DisplayEntry(cs), false, [], a1, Put(a1, k, Arr(Displays(cs))));
  }

  /** One item of a coding element, rendered and merged, before the rest. */
  lemma ItemsCons(k: string, xs: seq<Fhir>, scalar: bool, oid: Oid, acc: Fields, t: Trace, es: seq<Json>, u: Trace, next: Fields)
    requires xs != [] && Dict(xs[0], oid) == Ok(Out(Arr(es), u)) && CodingEntries(k, es, scalar, acc) == Ok(next)
    ensures CodingItems(k, xs, scalar, oid, acc, t) == CodingItems(k, xs[1..], scalar, oid, next, Plus(t, u))
  {
  }

  /** Each value renders as the two entries of the matching codings. */
  predicate RendersAsConcepts(xs: seq<Fhir>, css: seq<seq<Fhir>>, oid: Oid)
  {
    |xs| == |css|
    && (xs != [] ==> Dict(xs[0], oid) == Ok(Out(Arr([CodedEntry(css[0]), DisplayEntry(css[0])]), Quiet))
                     && RendersAsConcepts(xs[1..], css[1..], oid))
  }

  /** The remaining concepts of a list element, appended in order. */
  lemma {:induction false} ListItems(k: string, xs: seq<Fhir>, css: seq<seq<Fhir>>, oid: Oid, codes: seq<Json>, displays: seq<Json>)
    requires '-' !in k && RendersAsConcepts(xs, css, oid)
    ensures CodingItems(k, xs, false, oid, Lists(k, codes, displays), Quiet)
            == Ok((Lists(k, codes + AllCodes(css), displays + AllDisplays(css)), Quiet))
    decreases |css|
  {
    if css == [] {
      assert codes + [] == codes && displays + [] == displays;
    } else {
      var cs := css[0];
      ListStep(k, xs, cs, oid, codes, displays);
      ListItems(k, xs[1..], css[1..], oid, codes + Codes(cs), displays + Displays(cs));
      ListsAppend(k, codes, displays, css);
    }
  }

  lemma ListsAppend(k: string, codes: seq<Json>, displays: seq<Json>, css: seq<seq<Fhir>>)
    requires css != []
    ensures Lists(k, codes + Codes(css[0]) + AllCodes(css[1..]), displays + Displays(css[0]) + AllDisplays(css[1..]))
            == Lists(k, codes + AllCodes(css), displays + AllDisplays(css))
  {
    assert AllCodes(css) == Codes(css[0]) + AllCodes(css[1..]);
    assert AllDisplays(css) == Displays(css[0]) + AllDisplays(css[1..]);
    Assoc(codes, Codes(css[0]), AllCodes(css[1..]));
    Assoc(displays, Displays(css[0]), AllDisplays(css[1..]));
  }

  lemma Assoc(a: seq<Json>, b: seq<Json>, c: seq<Json>)
    ensures a + b + c == a + (b + c)
  {
  }

  lemma PlusQuiet()
    ensures Plus(Quiet, Quiet) == Quiet
  {
    assert Quiet.refs + Quiet.refs == Quiet.refs;
    assert Quiet.debug + Quiet.debug == Quiet.debug;
  }

  /** One concept of a list element merged into the lists so far. */
  lemma ConceptItem(k: string, xs: seq<Fhir>, cs: seq<Fhir>, oid: Oid, acc: Fields, next: Fields)
    requires xs != [] && Dict(xs[0], oid) == Ok(Out(Arr([CodedEntry(cs), DisplayEntry(cs)]), Quiet))
    requires CodingEntries(k, [CodedEntry(cs), DisplayEntry(cs)], false, acc) == Ok(next)
    ensures CodingItems(k, xs, false, oid, acc, Quiet) == CodingItems(k, xs[1..], false, oid, next, Quiet)
  {
    PlusQuiet();
    ItemsCons(k, xs, false, oid, acc, Quiet, [CodedEntry(cs), DisplayEntry(cs)], Quiet, next);
  }

  /** One concept of a list element appended to both lists. */
  lemma ListStep(k: string, xs: seq<Fhir>, cs: seq<Fhir>, oid: Oid, codes: seq<Json>, displays: seq<Json>)
    requires '-' !in k && xs != [] && Dict(xs[0], oid) == Ok(Out(Arr([CodedEntry(cs), DisplayEntry(cs)]), Quiet))
    ensures CodingItems(k, xs, false, oid, Lists(k, codes, displays), Quiet)
            == CodingItems(k, xs[1..], false, oid, Lists(k, codes + Codes(cs), displays + Displays(cs)), Quiet)
  {
    ExtendLists(k, cs, codes, displays);
    ConceptItem(k, xs, cs, oid, Lists(k, codes, displays), Lists(k, codes + Codes(cs), displays + Displays(cs)));
  }

  lemma {:induction false} ConceptsRendered(css: seq<seq<Fhir>>, oid: Oid)
    ensures RendersAsConcepts(Concepts(css), css, oid)
    decreases |css|
  {
    if css != [] {
      ConceptOfRendered(css[0], oid);
      assert Concepts(css)[1..] == Concepts(css[1..]);
      ConceptsRendered(css[1..], oid);
    }
  }

  /** The first concept of a list element starts both lists. */
  lemma ListStart(k: string, xs: seq<Fhir>, cs: seq<Fhir>, oid: Oid)
    requires '-' !in k && xs != [] && Dict(xs[0], oid) == Ok(Out(Arr([CodedEntry(cs), DisplayEntry(cs)]), Quiet))
    ensures CodingItems(k, xs, false, oid, [], Quiet)
            == CodingItems(k, xs[1..], false, oid, Lists(k, Codes(cs), Displays(cs)), Quiet)
  {
    StartLists(k, cs);
    ConceptItem(k, xs, cs, oid, [], Lists(k, Codes(cs), Displays(cs)));
  }

  /** A list element `k` of CodeableConcepts renders as two lists: every
      coded value under `k_coding` and every display under `k`, concept by
      concept and coding by coding. */
  lemma ListConceptField(kind: string, k: string, css: seq<seq<Fhir>>, oid: Oid)
    requires '-' !in k && css != []
    ensures var f := RenderCodings(Model(kind, [Elem(k, Many(Concepts(css)))]), oid);
            f == Ok((Lists(k, AllCodes(css), AllDisplays(css)), Quiet))
  {
    var xs := Concepts(css);
    assert CodingKind(xs[0]);
    ListCodings(k, xs, oid);
    ConceptsRendered(css, oid);
    ListStart(k, xs, css[0], oid);
    ListItems(k, xs[1..], css[1..], oid, Codes(css[0]), Displays(css[0]));
    assert AllCodes(css) == Codes(css[0]) + AllCodes(css[1..]);
    assert AllDisplays(css) == Displays(css[0]) + AllDisplays(css[1..]);
  }
}
