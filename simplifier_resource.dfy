// Properties of the simplifier's renderers for identifiers, references,
// primitives, extensions, sub-resources, observations and tasks.

module SimplifierResource {

  import opened Text
  import opened Json
  import opened SimplifierRender

  // ---------------------------------------------------------------------
  // Identifier systems and values

  /** Without a system the identifier's name is empty and nothing is logged. */
  lemma SystemAbsent(x: Fhir, oid: Oid)
    requires !Nonempty(StrField(x, "system"))
    ensures EnsureSystem(x, oid) == (Str(""), [])
  {
  }

  /** An RFC 3986 system is named `uri`. */
  lemma SystemUri(x: Fhir, oid: Oid, s: string)
    requires StrField(x, "system") == Some(s) && s != ""
    requires !Contains(s, "urn:oid") && Contains(s, "urn:ietf:rfc:3986")
    ensures EnsureSystem(x, oid) == (Str("uri"), [])
  {
  }

  /** Any other system is named after its last path segment, with `-`
      written `_`; the name holds no `/` and no `-`. */
  lemma SystemSegment(x: Fhir, oid: Oid, base: string, seg: string)
    requires StrField(x, "system") == Some(base + "/" + seg) && '/' !in seg
    requires !Contains(base + "/" + seg, "urn:oid") && !Contains(base + "/" + seg, "urn:ietf:rfc:3986")
    ensures EnsureSystem(x, oid) == (Str(ReplaceChar(seg, '-', '_')), [])
    ensures '-' !in EnsureSystem(x, oid).0.s && '/' !in EnsureSystem(x, oid).0.s
  {
    LastPieceAfter(base, '/', seg);
    assert base + "/" + seg == base + ['/'] + seg;
    var n := ReplaceChar(seg, '-', '_');
    assert forall i :: 0 <= i < |n| ==> n[i] != '-' && n[i] != '/';
  }

  /** An OID system is named by the lookup; when the lookup gives nothing
      the name is empty and exactly one message is logged. */
  lemma SystemOid(x: Fhir, oid: Oid, s: string)
    requires StrField(x, "system") == Some(s) && Contains(s, "urn:oid")
    ensures var found := oid(LastPiece(s, "urn:oid:"));
            EnsureSystem(x, oid)
            == if Truthy(found.0) then (found.0, []) else (Str(""), [OidFailed(s, found.1)])
  {
    assert s != "" by { assert IndexOf(s, "urn:oid").Some?; }
  }

  /** An OID value is replaced by the name the lookup gives; otherwise the
      value is kept and the failure is logged once. */
  lemma ValueOid(x: Fhir, oid: Oid, v: string)
    requires StrField(x, "value") == Some(v) && Contains(v, "urn:oid")
    ensures var found := oid(LastPiece(v, "urn:oid:"));
            EnsureValue(x, oid)
            == if Truthy(found.0) then (found.0, []) else (Str(v), [OidFailed(v, found.1)])
  {
    assert v != "" by { assert IndexOf(v, "urn:oid").Some?; }
  }

  /** A value that is not an OID is kept as it is, `None` when unset. */
  lemma ValuePlain(x: Fhir, oid: Oid)
    requires StrField(x, "value").None? || !Contains(StrField(x, "value").value, "urn:oid")
    ensures EnsureValue(x, oid) == (OptJson(StrField(x, "value")), [])
  {
  }

  /** An identifier renders under `identifier` and `identifier_coding`, and
      under `identifier_text_coding` exactly when its type has codings; the
      type's text gives no entry. The messages are the system's, then the
      value's. */
  lemma IdentifierNames(x: Fhir, oid: Oid)
    ensures var es := IdentifierEntries(x, oid).0;
            var t := Field(x, "type");
            (|es| == 2 || |es| == 3)
            && es[0] == ("identifier", Str(Format(EnsureSystem(x, oid).0) + "#" + Format(EnsureValue(x, oid).0)))
            && es[1] == ("identifier_coding", Str(Shown(StrField(x, "system")) + "#" + Shown(StrField(x, "value"))))
            && (|es| == 3 <==> FhirTruthy(t) && ItemsOf(Field(t, "coding")) != [])
            && (|es| == 3 ==> es[2] == ("identifier_text_coding", Str(CodeText(ItemsOf(Field(t, "coding"))[0]))))
    ensures IdentifierEntries(x, oid).1 == EnsureSystem(x, oid).1 + EnsureValue(x, oid).1
  {
  }

  // ---------------------------------------------------------------------
  // Grouping the identifier entries by name

  /** A value is listed under a name exactly when an entry pairs them. */
  lemma {:induction false} ValuesNamedIn(es: seq<(string, Json)>, k: string, v: Json)
    ensures v in ValuesNamed(es, k) <==> (k, v) in es
    decreases |es|
  {
    if es != [] {
      ValuesNamedIn(es[1..], k, v);
      assert es == [es[0]] + es[1..];
    }
  }

  /** Every grouped name holds the list of its values in entry order, and
      the accumulator is untouched elsewhere. */
  lemma {:induction false} GroupFromGet(keys: seq<string>, es: seq<(string, Json)>, acc: Fields)
    ensures forall k :: k in keys ==> Get(GroupFrom(keys, es, acc), k) == Some(Arr(ValuesNamed(es, k)))
    ensures forall k :: k !in keys ==> Get(GroupFrom(keys, es, acc), k) == Get(acc, k)
    decreases |keys|
  {
    if keys != [] {
      var next := Put(acc, keys[0], Arr(ValuesNamed(es, keys[0])));
      var r := GroupFrom(keys[1..], es, next);
      assert GroupFrom(keys, es, acc) == r;
      GroupFromGet(keys[1..], es, next);
      forall k | k in keys
        ensures Get(r, k) == Some(Arr(ValuesNamed(es, k)))
      {
        if k !in keys[1..] {
          assert k == keys[0];
        }
      }
      forall k | k !in keys
        ensures Get(r, k) == Get(acc, k)
      {
        assert k != keys[0] && k !in keys[1..];
      }
    }
  }

  /** `_render_identifiers` of a resource with identifiers: a name is
      present exactly when some identifier rendered an entry with it, and
      holds all values rendered under it. */
  lemma IdentifiersGrouped(x: Fhir, oid: Oid)
    requires FhirTruthy(Field(x, "identifier"))
    ensures var v := Field(x, "identifier");
            var es := IdentifiersFrom(if v.Many? then v.items else [v], oid).0;
            forall k :: Get(RenderIdentifiers(x, oid).0, k)
                        == if k in EntryNames(es) then Some(Arr(ValuesNamed(es, k))) else None
  {
    var v := Field(x, "identifier");
    var es := IdentifiersFrom(if v.Many? then v.items else [v], oid).0;
    GroupFromGet(EntryNames(es), es, []);
  }

  /** A resource without identifiers renders none. */
  lemma NoIdentifiers(x: Fhir, oid: Oid)
    requires !FhirTruthy(Field(x, "identifier"))
    ensures RenderIdentifiers(x, oid) == ([], Quiet)
  {
  }

  // ---------------------------------------------------------------------
  // References

  /** The loop of `_render_references`: references are only appended, and a
      name is present exactly when it was present or names a Reference. */
  lemma {:induction false} ReferencesFromProps(fs: seq<Elem>, acc: Fields, refs: seq<Option<string>>)
    ensures var r := ReferencesFrom(fs, acc, refs);
            |refs| <= |r.1| && r.1[..|refs|] == refs
    ensures forall k :: Has(ReferencesFrom(fs, acc, refs).0, k)
                        <==> Has(acc, k) || exists i :: 0 <= i < |fs| && fs[i].name == k && IsReference(fs[i].val)
    decreases |fs|
  {
    if fs != [] {
      var ref := StrField(fs[0].val, "reference");
      var acc' := if IsReference(fs[0].val) then Put(acc, fs[0].name, OptJson(ref)) else acc;
      var refs' := if IsReference(fs[0].val) then refs + [ref] else refs;
      ReferencesFromProps(fs[1..], acc', refs');
      assert refs'[..|refs|] == refs;
      forall k ensures Has(ReferencesFrom(fs, acc, refs).0, k)
                       <==> Has(acc, k) || exists i :: 0 <= i < |fs| && fs[i].name == k && IsReference(fs[i].val)
      {
        if exists i :: 0 <= i < |fs| && fs[i].name == k && IsReference(fs[i].val) {
          var i :| 0 <= i < |fs| && fs[i].name == k && IsReference(fs[i].val);
          if i > 0 { assert fs[1..][i - 1] == fs[i]; }
        }
        if exists i :: 0 <= i < |fs[1..]| && fs[1..][i].name == k && IsReference(fs[1..][i].val) {
          var i :| 0 <= i < |fs[1..]| && fs[1..][i].name == k && IsReference(fs[1..][i].val);
          assert fs[i + 1] == fs[1..][i];
        }
      }
    }
  }

  // ---------------------------------------------------------------------
  // Primitives

  /** The loop of `_render_primitives` keeps a name exactly when it was
      there or names a set primitive element. */
  lemma {:induction false} PrimitivesHas(fs: seq<Elem>, acc: Fields)
    ensures forall k :: Has(PrimitivesFrom(fs, acc), k)
                        <==> Has(acc, k) || exists i :: 0 <= i < |fs| && fs[i].name == k && IsPrimitive(fs[i].val)
    decreases |fs|
  {
    if fs != [] {
      var acc' := if IsPrimitive(fs[0].val) then Put(acc, fs[0].name, fs[0].val.value) else acc;
      PrimitivesHas(fs[1..], acc');
      forall k ensures Has(PrimitivesFrom(fs, acc), k)
                       <==> Has(acc, k) || exists i :: 0 <= i < |fs| && fs[i].name == k && IsPrimitive(fs[i].val)
      {
        if exists i :: 0 <= i < |fs| && fs[i].name == k && IsPrimitive(fs[i].val) {
          var i :| 0 <= i < |fs| && fs[i].name == k && IsPrimitive(fs[i].val);
          if i > 0 { assert fs[1..][i - 1] == fs[i]; }
        }
        if exists i :: 0 <= i < |fs[1..]| && fs[1..][i].name == k && IsPrimitive(fs[1..][i].val) {
          var i :| 0 <= i < |fs[1..]| && fs[1..][i].name == k && IsPrimitive(fs[1..][i].val);
          assert fs[i + 1] == fs[1..][i];
        }
      }
    }
  }

  /** A name no element has keeps its accumulated value. */
  lemma {:induction false} PrimitivesOther(fs: seq<Elem>, acc: Fields, k: string)
    requires forall i :: 0 <= i < |fs| ==> fs[i].name != k
    ensures Get(PrimitivesFrom(fs, acc), k) == Get(acc, k)
    decreases |fs|
  {
    if fs != [] {
      var acc' := if IsPrimitive(fs[0].val) then Put(acc, fs[0].name, fs[0].val.value) else acc;
      assert forall i :: 0 <= i < |fs[1..]| ==> fs[1..][i] == fs[i + 1];
      PrimitivesOther(fs[1..], acc', k);
    }
  }

  /** The elements of a FHIR class have distinct names. */
  predicate UniqueNames(fs: seq<Elem>)
  {
    forall i, j :: 0 <= i < j < |fs| ==> fs[i].name != fs[j].name
  }

  /** With distinct names, every set primitive element is rendered with its
      own value. */
  lemma {:induction false} PrimitivesGet(fs: seq<Elem>, acc: Fields, i: nat)
    requires UniqueNames(fs) && i < |fs| && IsPrimitive(fs[i].val)
    ensures Get(PrimitivesFrom(fs, acc), fs[i].name) == Some(fs[i].val.value)
    decreases |fs|
  {
    var acc' := if IsPrimitive(fs[0].val) then Put(acc, fs[0].name, fs[0].val.value) else acc;
    if i == 0 {
      PrimitivesOther(fs[1..], acc', fs[0].name);
    } else {
      assert fs[1..][i - 1] == fs[i];
      PrimitivesGet(fs[1..], acc', i - 1);
    }
  }

  /** Without a primitive `resourceType` element, the resource type is the
      class's name. */
  lemma ResourceTypeDefault(x: Fhir)
    requires x.Model?
    requires forall i :: 0 <= i < |x.fields| ==> !(x.fields[i].name == "resourceType" && IsPrimitive(x.fields[i].val))
    ensures Get(RenderPrimitives(x), "resourceType") == Some(Str(x.kind))
  {
    PrimitivesHas(x.fields, []);
  }

  // ---------------------------------------------------------------------
  // Extensions

  /** The values of an extension item land under its name; a list of one
      becomes its element, any other list stays a list. */
  lemma ExtensionListValue(acc: Fields, name: string, vs: seq<Json>)
    requires !Has(acc, ReplaceChar(name, '-', '_'))
    ensures ExtensionItem(acc, Str(name), Obj([("__value__", Arr(vs))]))
            == Ok(Put(acc, ReplaceChar(name, '-', '_'), if |vs| == 1 then vs[0] else Arr(vs)))
  {
    var c := ReplaceChar(name, '-', '_');
    var f := [("__value__", Arr(vs))];
    assert !Has(f, "__name__");
    assert At(f, "__value__") == Arr(vs);
    var a1 := Put(acc, c, Arr([]));
    assert ExtendAt(a1, c, Arr(vs)) == Ok(Put(a1, c, Arr([] + vs)));
    assert [] + vs == vs;
    PutTwice(acc, c, Arr([]), Arr(vs));
    if |vs| == 1 {
      PutTwice(acc, c, Arr(vs), vs[0]);
    }
  }

  /** A string-valued extension whose url ends in `/name` renders as that
      value under the name. */
  lemma ExtensionRendered(ext: Fhir, base: string, name: string, v: string, oid: Oid)
    requires ext.Model? && ext.kind == "Extension"
    requires ext.fields == [Elem("url", Prim(Str(base + "/" + name))), Elem("valueString", Prim(Str(v)))]
    requires '/' !in name && '-' !in name && name != ""
    ensures Dict(ext, oid) == Ok(Out(Obj([("__value__", Str(v)), ("__name__", Str(name))]), Quiet))
  {
    var url := base + "/" + name;
    LastPieceAfter(base, '/', name);
    assert url == base + ['/'] + name;
    NoDash(name);
    assert StrField(ext, "url") == Some(url);
    assert ExtensionValue(ext.fields) == Some(Prim(Str(v))) by {
      assert !StartsWith("url", "value");
      assert StartsWith("valueString", "value");
      assert ext.fields[1..] == [Elem("valueString", Prim(Str(v)))];
    }
    assert LastPiece(url, "/") == name;
    assert Nonempty(StrField(ext, "url"));
    assert ReplaceChar(name, '-', '_') == name;
    assert Raw(Prim(Str(v))) == Str(v);
    assert [("__value__", Str(v))] + [("__name__", Str(name))] == [("__value__", Str(v)), ("__name__", Str(name))];
    assert SimpleExtension(ext, oid) == Ok(Out(Obj([("__value__", Str(v)), ("__name__", Str(name))]), Quiet));
  }

  /** The extension loop over a single extension. */
  lemma ExtensionsOne(e: Fhir, oid: Oid, acc: Fields, t: Trace, d: Out, next: Fields)
    requires Dict(e, oid) == Ok(d) && ExtensionInto(acc, d.value) == Ok(next)
    ensures ExtensionsFrom([e], oid, acc, t) == Ok((next, Plus(t, d.trace)))
  {
    assert [e][1..] == [];
  }

  /** A rendered extension holding a plain value is stored under its name. */
  lemma ScalarInto(name: string, v: Json)
    requires !v.Arr? && !v.Obj?
    ensures ExtensionInto([], Obj([("__value__", v), ("__name__", Str(name))])) == Ok([(name, v)])
  {
    var d := Obj([("__value__", v), ("__name__", Str(name))]);
    assert Subscript(d, Str("__value__")) == Ok(v);
    assert Subscript(d, Str("__name__")) == Ok(Str(name));
    assert Put([], name, v) == [(name, v)] by {
      assert Keys(Put([], name, v)) == [name];
    }
    assert ExtensionItem([], Str(name), v) == Ok([(name, v)]);
    assert ExtensionItems([], Str(name), [v]) == Ok([(name, v)]) by {
      assert [v][1..] == [];
    }
  }

  /** A resource with one extension rendering to a plain value has exactly
      that value under the extension's name. */
  lemma ExtensionScalar(x: Fhir, ext: Fhir, name: string, v: Json, oid: Oid)
    requires x.Model? && Field(x, "extension") == Many([ext])
    requires Dict(ext, oid) == Ok(Out(Obj([("__value__", v), ("__name__", Str(name))]), Quiet))
    requires !v.Arr? && !v.Obj? && KeptValue(v)
    ensures RenderExtensions(x, oid) == Ok(([(name, v)], Quiet))
  {
    ScalarInto(name, v);
    ExtensionsOne(ext, oid, [], Quiet, Out(Obj([("__value__", v), ("__name__", Str(name))]), Quiet), [(name, v)]);
    assert Plus(Quiet, Quiet) == Quiet;
    assert DropEmpty([(name, v)]) == [(name, v)];
  }

  // ---------------------------------------------------------------------
  // Sub-resources

  /** The picked properties of a rendered item: a name is added exactly for
      a kept property, with the prefix in front. */
  lemma {:induction false} PickedKeys(prefix: string, props: seq<string>, f: Fields, acc: Fields)
    ensures forall k :: Has(Picked(prefix, props, f, acc), k)
                        <==> Has(acc, k) || exists i :: 0 <= i < |f| && f[i].0 in props && k == prefix + f[i].0
    decreases |f|
  {
    if f != [] {
      var acc' := if f[0].0 in props then Put(acc, prefix + f[0].0, f[0].1) else acc;
      PickedKeys(prefix, props, f[1..], acc');
      forall k ensures Has(Picked(prefix, props, f, acc), k)
                       <==> Has(acc, k) || exists i :: 0 <= i < |f| && f[i].0 in props && k == prefix + f[i].0
      {
        if exists i :: 0 <= i < |f| && f[i].0 in props && k == prefix + f[i].0 {
          var i :| 0 <= i < |f| && f[i].0 in props && k == prefix + f[i].0;
          if i > 0 { assert f[1..][i - 1] == f[i]; }
        }
        if exists i :: 0 <= i < |f[1..]| && f[1..][i].0 in props && k == prefix + f[1..][i].0 {
          var i :| 0 <= i < |f[1..]| && f[1..][i].0 in props && k == prefix + f[1..][i].0;
          assert f[i + 1] == f[1..][i];
        }
      }
    }
  }

  /** `_render_sub_resources` adds only `<element>_<property>` names for
      the configured properties, and nothing for other classes. */
  lemma SubResourceKeys(x: Fhir, oid: Oid)
    requires x.Model?
    ensures SubConfig(x.kind).None? ==> RenderSubResources(x, oid) == Ok(([], Quiet))
    ensures RenderSubResources(x, oid).Ok? && SubConfig(x.kind).Some? ==>
              forall k :: Has(RenderSubResources(x, oid).value.0, k) ==>
                exists p :: p in SubConfig(x.kind).value.1 && k == SubConfig(x.kind).value.0 + "_" + p
  {
    match SubConfig(x.kind)
    case None =>
    case Some((name, props)) =>
      var items := ItemsOf(Field(x, name));
      if items != [] {
        var d := Dict(items[0], oid);
        if d.Ok? && d.value.value.Obj? {
          PickedKeys(name + "_", props, d.value.value.fields, []);
          forall k | Has(RenderSubResources(x, oid).value.0, k)
            ensures exists p :: p in props && k == name + "_" + p
          {
            var i :| 0 <= i < |d.value.value.fields| && d.value.value.fields[i].0 in props
                     && k == name + "_" + d.value.value.fields[i].0;
          }
        }
      }
  }

  // ---------------------------------------------------------------------
  // Observations

  /** An observation without a category, or with `[None]`, is given the
      laboratory category and its coding; otherwise it renders as any
      resource. Its category is never `[None]`. */
  lemma ObservationCategory(x: Fhir, oid: Oid)
    requires x.Model? && ResourceDict(x, oid).Ok?
    ensures var f := ResourceDict(x, oid).value.0;
            var r := SimpleObservation(x, oid);
            r.Ok? && r.value.value.Obj?
            && (if !Has(f, "category") || At(f, "category") == Arr([Null])
                then Get(r.value.value.fields, "category") == Some(LabCategory)
                     && Get(r.value.value.fields, "category_coding") == Some(LabCoding)
                else r.value.value.fields == f)
            && At(r.value.value.fields, "category") != Arr([Null])
  {
  }

  // ---------------------------------------------------------------------
  // Tasks and the references they collect

  /** An element `_render_codings` passes over. */
  predicate SkipsCoding(v: Fhir)
  {
    var vs := if v.Many? then v.items else [v];
    v == Unset || vs == [] || !CodingKind(vs[0])
  }

  /** Without coding elements, `_render_codings` adds nothing. */
  lemma {:induction false} CodingsSkipped(fs: seq<Elem>, oid: Oid, acc: Fields, t: Trace)
    requires forall i :: 0 <= i < |fs| ==> SkipsCoding(fs[i].val)
    ensures CodingsFrom(fs, oid, acc, t) == Ok((acc, t))
    decreases |fs|
  {
    if fs != [] {
      assert SkipsCoding(fs[0].val);
      assert forall i :: 0 <= i < |fs[1..]| ==> fs[1..][i] == fs[i + 1];
      CodingsSkipped(fs[1..], oid, acc, t);
    }
  }

  /** The classes whose `dict()` is the generic resource renderer. */
  predicate GenericKind(kind: string)
  {
    kind != "Coding" && kind != "CodeableConcept" && kind != "CodeableReference" && kind != "Identifier"
    && kind != "Reference" && kind != "Extension" && kind != "Attachment"
    && kind != "DocumentReferenceContent" && kind != "Observation" && kind != "Task"
  }

  /** `dict()` of a class without a replacement of its own. */
  lemma GenericDict(x: Fhir, oid: Oid)
    requires x.Model? && GenericKind(x.kind) && ResourceDict(x, oid).Ok?
    ensures Dict(x, oid) == Ok(Out(Obj(ResourceDict(x, oid).value.0), ResourceDict(x, oid).value.1))
  {
  }

  /** A resource with no extensions, codings, identifiers or sub-resources
      records only the references of its Reference elements. */
  lemma ReferencesOnly(x: Fhir, oid: Oid)
    requires x.Model? && Field(x, "extension") == Unset && !FhirTruthy(Field(x, "identifier"))
    requires forall i :: 0 <= i < |x.fields| ==> SkipsCoding(x.fields[i].val)
    requires SubConfig(x.kind).None?
    ensures ResourceDict(x, oid).Ok? && ResourceDict(x, oid).value.1 == RenderReferences(x).1
  {
    CodingsSkipped(x.fields, oid, [], Quiet);
    assert RenderExtensions(x, oid) == Ok(([], Quiet));
    assert RenderCodings(x, oid) == Ok(([], Quiet));
    assert RenderIdentifiers(x, oid) == ([], Quiet);
    assert RenderSubResources(x, oid) == Ok(([], Quiet));
  }

  /** A task output holding one Reference renders as a resource that
      records that reference. */
  lemma OutputRefs(o: Fhir, ref: Fhir, oid: Oid)
    requires o.Model? && o.kind == "TaskOutput" && o.fields == [Elem("valueReference", ref)] && IsReference(ref)
    ensures Dict(o, oid).Ok? && Dict(o, oid).value.trace == Trace([StrField(ref, "reference")], [])
  {
    assert FieldIn(o.fields, "extension") == Unset;
    assert FieldIn(o.fields, "identifier") == Unset;
    assert SkipsCoding(o.fields[0].val);
    assert SubConfig(o.kind).None?;
    ReferencesOnly(o, oid);
    GenericDict(o, oid);
    assert o.fields[1..] == [];
    assert ReferencesFrom(o.fields, [], []).1 == [StrField(ref, "reference")];
  }

  /** `_simple_task_dict` adds the outputs' trace after the resource's. */
  lemma TaskTrace(x: Fhir, outs: seq<Fhir>, t: Trace, oid: Oid)
    requires x.Model? && ResourceDict(x, oid).Ok? && Field(x, "output") == Many(outs) && OutputsFrom(outs, oid) == Ok(t)
    ensures SimpleTask(x, oid) == Ok(Out(Obj(ResourceDict(x, oid).value.0), Plus(ResourceDict(x, oid).value.1, t)))
  {
  }

  /** The elements of a task with a focus, a subject and outputs. */
  lemma TaskFields(x: Fhir, focus: Fhir, subject: Fhir, outs: seq<Fhir>)
    requires x.Model? && x.fields == [Elem("focus", focus), Elem("for", subject), Elem("output", Many(outs))]
    requires IsReference(focus) && IsReference(subject) && outs != [] && !CodingKind(outs[0])
    ensures Field(x, "extension") == Unset && Field(x, "identifier") == Unset && Field(x, "output") == Many(outs)
    ensures forall i :: 0 <= i < |x.fields| ==> SkipsCoding(x.fields[i].val)
  {
    TaskOutput(focus, subject, outs);
    assert !CodingKind(focus) && !CodingKind(subject);
    assert SkipsCoding(Many(outs));
  }

  lemma TaskOutput(focus: Fhir, subject: Fhir, outs: seq<Fhir>)
    ensures var fs := [Elem("focus", focus), Elem("for", subject), Elem("output", Many(outs))];
            FieldIn(fs, "output") == Many(outs) && FieldIn(fs, "extension") == Unset && FieldIn(fs, "identifier") == Unset
  {
    var fs := [Elem("focus", focus), Elem("for", subject), Elem("output", Many(outs))];
    var f1 := [Elem("for", subject), Elem("output", Many(outs))];
    var f2 := [Elem("output", Many(outs))];
    assert fs[1..] == f1 && f1[1..] == f2 && f2[1..] == [];
    assert "focus" != "output" && "for" != "output";
    assert FieldIn(fs, "output") == FieldIn(f1, "output");
    assert FieldIn(f1, "output") == FieldIn(f2, "output");
  }

  /** The references of the focus and the subject, in that order; the
      outputs are not References themselves. */
  lemma TwoReferences(focus: Fhir, subject: Fhir, outs: seq<Fhir>)
    requires IsReference(focus) && IsReference(subject)
    ensures ReferencesFrom([Elem("focus", focus), Elem("for", subject), Elem("output", Many(outs))], [], []).1
            == [StrField(focus, "reference"), StrField(subject, "reference")]
  {
    var fs := [Elem("focus", focus), Elem("for", subject), Elem("output", Many(outs))];
    var f1 := [Elem("for", subject), Elem("output", Many(outs))];
    var f2 := [Elem("output", Many(outs))];
    assert fs[1..] == f1 && f1[1..] == f2 && f2[1..] == [];
    var a := StrField(focus, "reference");
    var b := StrField(subject, "reference");
    var acc1 := Put([], "focus", OptJson(a));
    var acc2 := Put(acc1, "for", OptJson(b));
    assert [] + [a] == [a] && [a] + [b] == [a, b];
    assert ReferencesFrom(fs, [], []) == ReferencesFrom(f1, acc1, [a]);
    assert ReferencesFrom(f1, acc1, [a]) == ReferencesFrom(f2, acc2, [a, b]);
    assert !IsReference(Many(outs));
    assert ReferencesFrom(f2, acc2, [a, b]) == ReferencesFrom([], acc2, [a, b]);
  }

  /** A task's references are recorded in encounter order: `focus`, `for`,
      then those of its outputs. */
  lemma TaskRefs(x: Fhir, focus: Fhir, subject: Fhir, outs: seq<Fhir>, t: Trace, oid: Oid)
    requires x.Model? && x.kind == "Task"
    requires x.fields == [Elem("focus", focus), Elem("for", subject), Elem("output", Many(outs))]
    requires IsReference(focus) && IsReference(subject)
    requires outs != [] && !CodingKind(outs[0]) && OutputsFrom(outs, oid) == Ok(t)
    ensures SimpleTask(x, oid).Ok?
    ensures SimpleTask(x, oid).value.trace.refs == [StrField(focus, "reference"), StrField(subject, "reference")] + t.refs
  {
    TaskFields(x, focus, subject, outs);
    TwoReferences(focus, subject, outs);
    assert SubConfig(x.kind).None?;
    ReferencesOnly(x, oid);
    TaskTrace(x, outs, t, oid);
  }

  /** With one output holding a Reference, the task records three
      references: focus, for, output. */
  lemma TaskRefsOrder(x: Fhir, focus: Fhir, subject: Fhir, o: Fhir, ref: Fhir, oid: Oid)
    requires x.Model? && x.kind == "Task"
    requires x.fields == [Elem("focus", focus), Elem("for", subject), Elem("output", Many([o]))]
    requires IsReference(focus) && IsReference(subject)
    requires o.Model? && o.kind == "TaskOutput" && o.fields == [Elem("valueReference", ref)] && IsReference(ref)
    ensures SimpleTask(x, oid).Ok?
    ensures SimpleTask(x, oid).value.trace.refs
            == [StrField(focus, "reference"), StrField(subject, "reference"), StrField(ref, "reference")]
  {
    OutputRefs(o, ref, oid);
    var d := Dict(o, oid).value;
    assert [o][1..] == [];
    assert OutputsFrom([o], oid) == Ok(Plus(d.trace, Quiet));
    TaskRefs(x, focus, subject, [o], Plus(d.trace, Quiet), oid);
  }
}
