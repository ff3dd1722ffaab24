// The element-bindings lookup: FHIR StructureDefinition bundles are walked
// profile by profile and element by element, and every element whose
// `binding` names a value set is keyed by its `Class.property` name. The
// bundles are given already parsed, in the order their files are read;
// the download, the zip archive and the SQLite table are not modelled.

module BindingLookup {

  import opened Text
  import opened Json
  import Inflection

  /** `[inflection.camelize(_) for _ in parts]` */
  function CamelizeAll(parts: seq<string>): (r: seq<string>)
    ensures |r| == |parts|
    ensures forall i :: 0 <= i < |parts| ==> r[i] == Inflection.Camelize(parts[i])
  {
    if parts == [] then [] else CamelizeAll(parts[..|parts| - 1]) + [Inflection.Camelize(parts[|parts| - 1])]
  }

  /** `_class_property(element_id)` */
  function ClassProperty(elementId: string): string
  {
    var parts := Split(elementId, ".");
    if |parts| == 2 then parts[0] + "." + parts[1]
    else Join(CamelizeAll(parts[..|parts| - 1]), "") + "." + parts[|parts| - 1]
  }

  /** An id of two dot-separated parts is its own key. */
  lemma TwoPartsKept(elementId: string)
    requires |Split(elementId, ".")| == 2
    ensures ClassProperty(elementId) == elementId
  {
    TwoPieces(elementId, '.');
  }

  lemma {:induction false} CamelizeRestFree(s: string, c: char)
    requires c !in s && !IsCased(c)
    ensures c !in Inflection.CamelizeRest(s)
    decreases |s|
  {
    if s != [] {
      if |s| >= 2 && s[0] == '_' && s[1] != '\n' {
        CamelizeRestFree(s[2..], c);
      } else {
        CamelizeRestFree(s[1..], c);
      }
    }
  }

  lemma {:induction false} JoinFree(parts: seq<string>, c: char)
    requires forall i :: 0 <= i < |parts| ==> c !in parts[i]
    ensures c !in Join(parts, "")
    decreases |parts|
  {
    if |parts| > 1 {
      JoinFree(parts[1..], c);
    }
  }

  /** The camelised class part of a longer id holds no dot. */
  lemma ClassPartFree(parts: seq<string>)
    requires forall i :: 0 <= i < |parts| ==> '.' !in parts[i]
    ensures '.' !in Join(CamelizeAll(parts), "")
  {
    var cs := CamelizeAll(parts);
    forall i | 0 <= i < |cs| ensures '.' !in cs[i] {
      CamelizedFree(parts[i]);
    }
    JoinFree(cs, '.');
  }

  lemma CamelizedFree(p: string)
    requires '.' !in p
    ensures '.' !in Inflection.Camelize(p)
  {
    if p != [] && p[0] != '\n' {
      CamelizeRestFree(p[1..], '.');
      assert Inflection.Camelize(p) == [UpperChar(p[0])] + Inflection.CamelizeRest(p[1..]);
    } else {
      CamelizeRestFree(p, '.');
    }
  }

  /** Every key is `Class.property`: exactly one dot, followed by the id's
      last part; for a longer id the class is the camelised leading parts. */
  lemma KeyShape(elementId: string)
    ensures var parts := Split(elementId, ".");
            var key := Split(ClassProperty(elementId), ".");
            && |key| == 2
            && key[1] == parts[|parts| - 1]
            && (|parts| != 2 ==> key[0] == Join(CamelizeAll(parts[..|parts| - 1]), ""))
  {
    var parts := Split(elementId, ".");
    SplitPiecesFree(elementId, '.');
    var last := parts[|parts| - 1];
    if |parts| == 2 {
      SplitPair(parts[0], '.', last);
    } else {
      var init := parts[..|parts| - 1];
      ClassPartFree(init);
      SplitPair(Join(CamelizeAll(init), ""), '.', last);
    }
  }

  /** Keying a key again changes nothing. */
  lemma KeyIdempotent(elementId: string)
    ensures ClassProperty(ClassProperty(elementId)) == ClassProperty(elementId)
  {
    KeyShape(elementId);
    TwoPartsKept(ClassProperty(elementId));
  }

  /** A three-part id: the first two parts camelised and run together. */
  lemma ThreeParts(a: string, b: string, c: string)
    requires '.' !in a && '.' !in b && '.' !in c
    ensures ClassProperty(a + "." + b + "." + c) == Inflection.Camelize(a) + Inflection.Camelize(b) + "." + c
  {
    SplitThree(a, b, c);
    assert [a, b, c][..2] == [a, b];
    JoinTwoCamelized(a, b);
  }

  lemma JoinTwoCamelized(a: string, b: string)
    ensures Join(CamelizeAll([a, b]), "") == Inflection.Camelize(a) + Inflection.Camelize(b)
  {
    var cs := CamelizeAll([a, b]);
    assert cs == [Inflection.Camelize(a), Inflection.Camelize(b)];
    assert cs[1..] == [Inflection.Camelize(b)];
  }

  lemma SplitThree(a: string, b: string, c: string)
    requires '.' !in a && '.' !in b && '.' !in c
    ensures Split(a + "." + b + "." + c, ".") == [a, b, c]
  {
    var id := a + "." + b + "." + c;
    var rest := b + "." + c;
    assert id == a + ['.'] + rest;
    IndexOfAfter(a, '.', rest);
    assert id[..|a|] == a && id[|a| + 1..] == rest;
    SplitPair(b, '.', c);
  }

  /** A yielded row of the table: `{'key': ..., 'element': ...}`. */
  datatype Binding = Binding(key: string, element: Json)

  /** `element['id']` split into its key; the id must be a string. */
  function KeyOf(element: Json): (r: Result<string>)
    ensures r.Ok? <==> element.Obj? && Has(element.fields, "id") && At(element.fields, "id").Str?
    ensures r.Ok? ==> r.value == ClassProperty(At(element.fields, "id").s)
  {
    var id :- Subscript(element, Str("id"));
    if id.Str? then Ok(ClassProperty(id.s)) else Err(AttributeError("split"))
  }

  /** The filter of `_elements_with_bindings` for one element. */
  function BindingOf(element: Json): Result<Option<Binding>>
  {
    var hasBinding :- InJ("binding", element);
    if !hasBinding then Ok(None)
    else
      var binding :- Subscript(element, Str("binding"));
      var valueSet :- ObjGet(binding, "valueSet");
      if valueSet.None? || !Truthy(valueSet.value) then Ok(None)
      else
        var key :- KeyOf(element);
        Ok(Some(Binding(key, element)))
  }

  /** A dict element is yielded exactly when its binding is a dict with a
      truthy `valueSet` and it has a string id; it is keyed by that id. */
  lemma BindingOfObject(element: Json)
    requires element.Obj?
    ensures var f := element.fields;
            var bound := Has(f, "binding") && At(f, "binding").Obj?
                         && Has(At(f, "binding").fields, "valueSet") && Truthy(At(At(f, "binding").fields, "valueSet"));
            && (BindingOf(element).Ok? && BindingOf(element).value.Some? <==> bound && Has(f, "id") && At(f, "id").Str?)
            && (bound && Has(f, "id") && At(f, "id").Str? ==>
                  BindingOf(element) == Ok(Some(Binding(ClassProperty(At(f, "id").s), element))))
            && (!Has(f, "binding") ==> BindingOf(element) == Ok(None))
  {
  }

  /** A generator filter `for x in xs: ... yield` drained into a list: the
      kept values in order, or the first exception raised. */
  function Collect<A, B>(xs: seq<A>, f: A -> Result<Option<B>>): Result<seq<B>>
  {
    if xs == [] then Ok([])
    else
      var rest :- Collect(xs[..|xs| - 1], f);
      var y :- f(xs[|xs| - 1]);
      Ok(rest + (if y.Some? then [y.value] else []))
  }

  /** The drain fails exactly when some step raises. */
  lemma {:induction false} CollectOk<A, B>(xs: seq<A>, f: A -> Result<Option<B>>)
    ensures Collect(xs, f).Ok? <==> forall i :: 0 <= i < |xs| ==> f(xs[i]).Ok?
  {
    if xs != [] {
      var init := xs[..|xs| - 1];
      CollectOk(init, f);
      if Collect(init, f).Err? {
        var i :| 0 <= i < |init| && f(init[i]).Err?;
        assert xs[i] == init[i];
      }
      if forall i :: 0 <= i < |xs| ==> f(xs[i]).Ok? {
        forall i | 0 <= i < |init| ensures f(init[i]).Ok? {
          assert init[i] == xs[i];
        }
      }
    }
  }

  /** Each kept value comes from one element; at most one per element. */
  lemma {:induction false} CollectSound<A, B>(xs: seq<A>, f: A -> Result<Option<B>>, y: B) returns (i: nat)
    requires Collect(xs, f).Ok? && y in Collect(xs, f).value
    ensures i < |xs| && f(xs[i]) == Ok(Some(y))
  {
    var init := xs[..|xs| - 1];
    if y in Collect(init, f).value {
      i := CollectSound(init, f, y);
      assert xs[i] == init[i];
    } else {
      i := |xs| - 1;
    }
  }

  lemma {:induction false} CollectLength<A, B>(xs: seq<A>, f: A -> Result<Option<B>>)
    requires Collect(xs, f).Ok?
    ensures |Collect(xs, f).value| <= |xs|
  {
    if xs != [] {
      CollectLength(xs[..|xs| - 1], f);
    }
  }

  /** Every element a step keeps is in the drained list. */
  lemma {:induction false} CollectComplete<A, B>(xs: seq<A>, f: A -> Result<Option<B>>, i: nat, y: B)
    requires Collect(xs, f).Ok? && i < |xs| && f(xs[i]) == Ok(Some(y))
    ensures y in Collect(xs, f).value
  {
    var init := xs[..|xs| - 1];
    if i < |init| {
      assert init[i] == xs[i];
      CollectComplete(init, f, i, y);
    }
  }

  /** The bindings of a profile's elements, in order, up to the first error. */
  function BindingsOf(elements: seq<Json>): Result<seq<Binding>>
  {
    Collect(elements, BindingOf)
  }

  /** `_element_in_profile(profile)` */
  function ElementInProfile(profile: Json): Result<seq<Json>>
  {
    var snapshot :- ObjGet(profile, "snapshot");
    if snapshot.None? || !Truthy(snapshot.value) then Ok([])
    else
      var element :- ObjGet(snapshot.value, "element");
      Iterate(if element.Some? then element.value else Arr([]))
  }

  /** A profile without a snapshot has no elements; a snapshot's element
      list is walked as it is. */
  lemma ElementsOfProfile(profile: Fields)
    ensures !Has(profile, "snapshot") ==> ElementInProfile(Obj(profile)) == Ok([])
    ensures Has(profile, "snapshot") && At(profile, "snapshot").Obj? ==>
              var s := At(profile, "snapshot").fields;
              && (s != [] && !Has(s, "element") ==> ElementInProfile(Obj(profile)) == Ok([]))
              && (Has(s, "element") && At(s, "element").Arr? ==> ElementInProfile(Obj(profile)) == Ok(At(s, "element").items))
  {
  }

  /** One bundle entry: its truthy `resource`, if any, as a profile. */
  function ProfileOf(entry: Json): (r: Result<Option<Json>>)
    ensures r.Ok? <==> entry.Obj?
    ensures r.Ok? && r.value.Some? ==> Truthy(r.value.value) && Get(entry.fields, "resource") == r.value
  {
    var resource :- ObjGet(entry, "resource");
    if resource.Some? && Truthy(resource.value) then Ok(resource) else Ok(None)
  }

  /** The bindings of one entry's profile. */
  function BindingsOfEntry(entry: Json): Result<seq<Binding>>
  {
    var profile :- ProfileOf(entry);
    if profile.None? then Ok([])
    else
      var elements :- ElementInProfile(profile.value);
      BindingsOf(elements)
  }

  /** An entry without a resource is skipped. */
  lemma EntryWithoutResource(entry: Fields)
    requires !Has(entry, "resource") || !Truthy(At(entry, "resource"))
    ensures BindingsOfEntry(Obj(entry)) == Ok([])
  {
  }

  /** The entries of one bundle, each profile's elements in turn. */
  function BindingsOfEntries(entries: seq<Json>): Result<seq<Binding>>
  {
    if entries == [] then Ok([])
    else
      var rest :- BindingsOfEntries(entries[..|entries| - 1]);
      var more :- BindingsOfEntry(entries[|entries| - 1]);
      Ok(rest + more)
  }

  /** `_profile_in_bundle(bundle)` feeding the element filter. */
  function BindingsOfBundle(bundle: Json): Result<seq<Binding>>
  {
    var entry :- ObjGet(bundle, "entry");
    var entries :- Iterate(if entry.Some? then entry.value else Arr([]));
    BindingsOfEntries(entries)
  }

  /** `_elements_with_bindings` over the bundles of the files, in order. */
  function ElementsWithBindings(bundles: seq<Json>): Result<seq<Binding>>
  {
    if bundles == [] then Ok([])
    else
      var rest :- ElementsWithBindings(bundles[..|bundles| - 1]);
      var more :- BindingsOfBundle(bundles[|bundles| - 1]);
      Ok(rest + more)
  }

  /** Everything yielded from a bundle is a bound element of one of its
      entries' profiles. */
  lemma {:induction false} EntriesYieldBound(entries: seq<Json>, b: Binding)
    requires BindingsOfEntries(entries).Ok? && b in BindingsOfEntries(entries).value
    ensures exists i :: 0 <= i < |entries| && BindingsOfEntry(entries[i]).Ok? && b in BindingsOfEntry(entries[i]).value
  {
    var init := entries[..|entries| - 1];
    if b in BindingsOfEntries(init).value {
      EntriesYieldBound(init, b);
      var i :| 0 <= i < |init| && BindingsOfEntry(init[i]).Ok? && b in BindingsOfEntry(init[i]).value;
      assert entries[i] == init[i];
    } else {
      assert b in BindingsOfEntry(entries[|entries| - 1]).value;
    }
  }

  /** A yielded row always comes from an element with a truthy value set,
      keyed by that element's id. */
  lemma EntryYieldsBound(entry: Json, b: Binding)
    requires BindingsOfEntry(entry).Ok? && b in BindingsOfEntry(entry).value
    ensures b.element.Obj? && Has(b.element.fields, "id") && At(b.element.fields, "id").Str?
    ensures b.key == ClassProperty(At(b.element.fields, "id").s)
    ensures Has(b.element.fields, "binding") && At(b.element.fields, "binding").Obj?
    ensures var f := At(b.element.fields, "binding").fields; Has(f, "valueSet") && Truthy(At(f, "valueSet"))
  {
    var profile := ProfileOf(entry).value.value;
    var elements := ElementInProfile(profile).value;
    var i := CollectSound(elements, BindingOf, b);
    BoundElement(elements[i], b);
  }

  lemma BoundElement(element: Json, b: Binding)
    requires BindingOf(element) == Ok(Some(b))
    ensures b.element == element && element.Obj? && Has(element.fields, "id") && At(element.fields, "id").Str?
    ensures b.key == ClassProperty(At(element.fields, "id").s)
    ensures Has(element.fields, "binding") && At(element.fields, "binding").Obj?
    ensures var f := At(element.fields, "binding").fields; Has(f, "valueSet") && Truthy(At(f, "valueSet"))
  {
  }
}
