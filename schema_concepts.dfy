// The CodeableConcept, Quantity and embedded-type passes of the schema
// simplifier (iceberg_tools/schema/simplified.py, the same code as gen3.py).
// Each pass takes a snapshot of the matching properties and then rewrites
// them one entry at a time; a step sees the properties as the earlier steps
// left them. The loop bodies mutate the snapshot's dicts in place, so a
// property whose key an earlier iteration re-bound to a new dict (`{m}_coding`,
// `{m}_text`, `{m}_unit`, `{m}_value`) is rewritten detached and its rewrite
// never reaches the properties; `Visit` models that.
module SchemaConcepts {
  import opened Text
  import opened Json
  import opened SchemaClassify
  import opened SchemaPasses

  // ---------------------------------------------------------------------
  // Visiting a snapshot

  /** The keys a step for property `n` may write: `n` and `n` + each suffix. */
  predicate Touches(n: string, sfx: seq<string>, k: string)
  {
    k == n || exists j :: 0 <= j < |sfx| && k == n + sfx[j]
  }

  /** A loop body: the properties, the property's name, its snapshot value. */
  type Step = (Fields, string, Json) -> Result<Fields>

  /** Property `n` is detached when an earlier step of the same loop stored
      a new dict under its key (`{m}_coding`, `{m}_unit`, ... for an earlier
      `m`): the snapshot still holds the original dict, so the loop body
      mutates a dict that is no longer in the properties. */
  predicate Detached(n: string, seen: seq<string>, sfx: seq<string>)
  {
    exists m, j :: m in seen && 0 <= j < |sfx| && n == m + sfx[j]
  }

  /** One iteration of the loop, `seen` being the names visited before it
      and `sfx` the suffixes of the keys a step stores new dicts under. What
      the step stores under other keys lands in the properties; what it
      does to a detached property itself is lost. */
  function Visit(props: Fields, n: string, p: Json, step: Step, sfx: seq<string>, seen: seq<string>): (r: Result<Fields>)
    ensures r.Ok? <==> step(props, n, p).Ok?
    ensures r.Err? ==> r == step(props, n, p)
    ensures r.Ok? ==> forall k :: k != n ==> Get(r.value, k) == Get(step(props, n, p).value, k)
    ensures r.Ok? && Detached(n, seen, sfx) ==> Get(r.value, n) == Get(props, n)
    ensures !Detached(n, seen, sfx) ==> r == step(props, n, p)
  {
    var props1 :- step(props, n, p);
    if Detached(n, seen, sfx) then
      match Get(props, n)
      case Some(v) => Ok(Put(props1, n, v))
      case None => Ok(Del(props1, n))
    else Ok(props1)
  }

  /** `for name, property_ in snapshot.items(): ...`, stopping at the first
      exception. */
  function Fold(props: Fields, snap: Fields, step: Step, sfx: seq<string>, seen: seq<string>): (r: Result<Fields>)
    decreases |snap|
  {
    if snap == [] then Ok(props)
    else
      var props1 :- Visit(props, snap[0].0, snap[0].1, step, sfx, seen);
      Fold(props1, snap[1..], step, sfx, seen + [snap[0].0])
  }

  /** One iteration of the visit, seen from entry `i`. */
  lemma FoldStep(props: Fields, snap: Fields, step: Step, sfx: seq<string>, seen: seq<string>, i: nat)
    requires i < |snap|
    ensures var v := Visit(props, snap[i].0, snap[i].1, step, sfx, seen);
            (v.Err? ==> Fold(props, snap[i..], step, sfx, seen) == Err(v.error)) &&
            (v.Ok? ==> Fold(props, snap[i..], step, sfx, seen) == Fold(v.value, snap[i+1..], step, sfx, seen + [snap[i].0]))
  {
    assert snap[i..][0] == snap[i];
    assert snap[i..][1..] == snap[i+1..];
  }

  /** The visit as the source's loop. */
  method FoldEntries(props: Fields, snap: Fields, step: Step, sfx: seq<string>) returns (r: Result<Fields>)
    ensures r == Fold(props, snap, step, sfx, [])
  {
    var out := props;
    var seen: seq<string> := [];
    var i := 0;
    while i < |snap|
      invariant i <= |snap|
      invariant Fold(props, snap, step, sfx, []) == Fold(out, snap[i..], step, sfx, seen)
    {
      var next := Visit(out, snap[i].0, snap[i].1, step, sfx, seen);
      FoldStep(out, snap, step, sfx, seen, i);
      if next.Err? {
        return Err(next.error);
      }
      out := next.value;
      seen := seen + [snap[i].0];
      i := i + 1;
    }
    r := Ok(out);
  }

  /** The frame of a step: it writes only `n` and `n` + a suffix. */
  ghost predicate Framed(step: Step, sfx: seq<string>)
  {
    forall a, n, v :: step(a, n, v).Ok? ==>
      forall k' :: !Touches(n, sfx, k') ==> Get(step(a, n, v).value, k') == Get(a, k')
  }

  /** A key that no step touches keeps its value. */
  lemma {:induction false} FoldFrame(props: Fields, snap: Fields, step: Step, sfx: seq<string>, seen: seq<string>, k: string)
    requires Framed(step, sfx)
    requires forall i :: 0 <= i < |snap| ==> !Touches(snap[i].0, sfx, k)
    requires Fold(props, snap, step, sfx, seen).Ok?
    ensures Get(Fold(props, snap, step, sfx, seen).value, k) == Get(props, k)
    decreases |snap|
  {
    if snap != [] {
      var props1 := Visit(props, snap[0].0, snap[0].1, step, sfx, seen).value;
      assert !Touches(snap[0].0, sfx, k);
      forall i | 0 <= i < |snap[1..]|
        ensures !Touches(snap[1..][i].0, sfx, k)
      {
        assert snap[1..][i] == snap[i + 1];
      }
      FoldFrame(props1, snap[1..], step, sfx, seen + [snap[0].0], k);
    }
  }

  /** A detached key keeps its value even through the steps for the
      property of that name: only other steps could write it. */
  lemma {:induction false} FoldKeeps(props: Fields, snap: Fields, step: Step, sfx: seq<string>, seen: seq<string>, k: string)
    requires Framed(step, sfx) && Detached(k, seen, sfx)
    requires forall i :: 0 <= i < |snap| ==> snap[i].0 == k || !Touches(snap[i].0, sfx, k)
    requires Fold(props, snap, step, sfx, seen).Ok?
    ensures Get(Fold(props, snap, step, sfx, seen).value, k) == Get(props, k)
    decreases |snap|
  {
    if snap != [] {
      var props1 := Visit(props, snap[0].0, snap[0].1, step, sfx, seen).value;
      assert Get(props1, k) == Get(props, k);
      var m, j :| m in seen && 0 <= j < |sfx| && k == m + sfx[j];
      assert m in seen + [snap[0].0];
      forall i | 0 <= i < |snap[1..]|
        ensures snap[1..][i].0 == k || !Touches(snap[1..][i].0, sfx, k)
      {
        assert snap[1..][i] == snap[i + 1];
      }
      FoldKeeps(props1, snap[1..], step, sfx, seen + [snap[0].0], k);
    }
  }

  /** The first iteration of a successful visit. */
  lemma FoldHead(props: Fields, snap: Fields, step: Step, sfx: seq<string>, seen: seq<string>) returns (props1: Fields)
    requires snap != [] && Fold(props, snap, step, sfx, seen).Ok?
    ensures Visit(props, snap[0].0, snap[0].1, step, sfx, seen) == Ok(props1)
    ensures Fold(props, snap, step, sfx, seen) == Fold(props1, snap[1..], step, sfx, seen + [snap[0].0])
  {
    props1 := Visit(props, snap[0].0, snap[0].1, step, sfx, seen).value;
  }

  /** A successful visit passes through entry `i`: some state `mid`, after
      some names `seen'`, is rewritten by the iteration for that entry, and
      the rest of the visit goes on from there. */
  lemma {:induction false} FoldAt(props: Fields, snap: Fields, step: Step, sfx: seq<string>, seen: seq<string>, i: nat)
    returns (mid: Fields, seen': seq<string>)
    requires i < |snap| && Fold(props, snap, step, sfx, seen).Ok?
    ensures Visit(mid, snap[i].0, snap[i].1, step, sfx, seen').Ok?
    ensures Fold(props, snap, step, sfx, seen) ==
              Fold(Visit(mid, snap[i].0, snap[i].1, step, sfx, seen').value, snap[i+1..], step, sfx, seen' + [snap[i].0])
    decreases i
  {
    var props1 := FoldHead(props, snap, step, sfx, seen);
    if i == 0 {
      mid, seen' := props, seen;
    } else {
      mid, seen' := FoldAt(props1, snap[1..], step, sfx, seen + [snap[0].0], i - 1);
      assert snap[1..][i - 1] == snap[i];
      assert snap[1..][i..] == snap[i+1..];
    }
  }

  /** A pass over one schema: nothing changes when the snapshot is empty;
      otherwise `schema['properties']` is rewritten. */
  function Pass(schema: Fields, snap: Fields, step: Step, sfx: seq<string>): (r: Result<Fields>)
    ensures snap == [] ==> r == Ok(schema)
    ensures r.Ok? && snap != [] ==>
              PropsAt(schema).Ok? && Fold(PropsAt(schema).value, snap, step, sfx, []).Ok? &&
              r.value == WithProps(schema, Fold(PropsAt(schema).value, snap, step, sfx, []).value)
  {
    if snap == [] then Ok(schema)
    else
      var props :- PropsAt(schema);
      var props1 :- Fold(props, snap, step, sfx, []);
      Ok(WithProps(schema, props1))
  }

  /** The pass as the source's loop over the snapshot. */
  method RunPass(schema: Fields, snap: Fields, step: Step, sfx: seq<string>) returns (r: Result<Fields>)
    ensures r == Pass(schema, snap, step, sfx)
  {
    if snap == [] {
      return Ok(schema);
    }
    var props := PropsAt(schema);
    if props.Err? {
      return Err(props.error);
    }
    var props1 := FoldEntries(props.value, snap, step, sfx);
    if props1.Err? {
      return Err(props1.error);
    }
    r := Ok(WithProps(schema, props1.value));
  }

  // ---------------------------------------------------------------------
  // Bindings: `_add_term_def`, `_add_enum`, `_adjust_description`

  /** A termDef naming the binding: its id, term and url are the binding
      URI, its source is `fhir`, and it carries the strength. */
  predicate NamesBinding(d: Fields, uri: Json, strength: Json)
  {
    Get(d, "cde_id") == Some(uri) && Get(d, "term") == Some(uri) && Get(d, "term_url") == Some(uri) &&
    Get(d, "cde_version") == Some(Null) && Get(d, "source") == Some(Str("fhir")) &&
    Get(d, "strength") == Some(strength)
  }

  /** `property_['term']` holds the binding description and such a termDef. */
  predicate TermNames(q: Fields, uri: Json, strength: Json, desc: Json)
  {
    match Get(q, "term")
    case Some(Obj(t)) =>
      Get(t, "description") == Some(desc) &&
      (match Get(t, "termDef")
       case Some(Obj(d)) => NamesBinding(d, uri, strength)
       case _ => false)
    case _ => false
  }

  /** The dict literal of `termDef`. */
  function TermDefOf(uri: Json, strength: Json): (d: Fields)
    ensures NamesBinding(d, uri, strength)
  {
    assert "cde_id" != "term" && "term" != "term_url" && "term_url" != "cde_version" && "cde_version" != "source" && "source" != "strength";
    assert "cde_id" != "term_url" && "cde_id" != "source" && "term" != "source" && "term_url" != "strength";
    assert "cde_id" != "cde_version" && "cde_id" != "strength" && "term" != "cde_version" && "term" != "strength";
    assert "term_url" != "source" && "cde_version" != "strength";
    var d1 := Put(Put(Put([], "cde_id", uri), "term", uri), "term_url", uri);
    var d := Put(Put(Put(d1, "cde_version", Null), "source", Str("fhir")), "strength", strength);
    d
  }

  /** The dict literal `{'description': desc, 'termDef': {...}}`. */
  function TermOf(uri: Json, strength: Json, desc: Json): (t: Json)
    ensures TermNames([("term", t)], uri, strength, desc)
  {
    var t := Put(Put([], "description", desc), "termDef", Obj(TermDefOf(uri, strength)));
    GetCons("term", Obj(t), [], "term");
    Obj(t)
  }

  /** `_add_term_def(property_)` */
  function AddTermDef(p: Fields): (r: Result<Fields>)
    ensures !Has(p, "binding_uri") ==> r == Ok(p)
    ensures Has(p, "binding_uri") ==> (r.Ok? <==> Has(p, "binding_strength"))
    ensures Has(p, "binding_uri") && r.Err? ==> r.error == KeyError("binding_strength")
    ensures r.Ok? ==> forall k :: k != "term" ==> Get(r.value, k) == Get(p, k)
    ensures r.Ok? && Has(p, "binding_uri") ==>
              TermNames(r.value, At(p, "binding_uri"), At(p, "binding_strength"),
                        GetOr(p, "binding_description", Str("")))
  {
    if !Has(p, "binding_uri") then Ok(p)
    else
      var strength :- Index(p, "binding_strength");
      var t := TermOf(At(p, "binding_uri"), strength, GetOr(p, "binding_description", Str("")));
      TermKept(p, t);
      Ok(Put(p, "term", t))
  }

  /** Storing a term keeps what the term names. */
  lemma TermKept(p: Fields, t: Json)
    ensures Get(Put(p, "term", t), "term") == Get([("term", t)], "term")
  {
    GetCons("term", t, [], "term");
  }

  /** `property_['binding_strength'] + '\n- '.join(property_['enum_values'])`:
      the join is evaluated first, then the strength must be a string. */
  function Addendum(strength: Json, values: Json): (r: Result<string>)
    ensures r.Ok? <==> strength.Str? && JoinJ("\n- ", values).Ok?
    ensures r.Ok? ==> r.value == strength.s + JoinJ("\n- ", values).value
  {
    var joined :- JoinJ("\n- ", values);
    Concat(strength, joined)
  }

  /** `if 'description' in property_: property_['description'] += addendum` */
  function AppendDescription(p: Fields, add: string): (r: Result<Fields>)
    ensures !Has(p, "description") ==> r == Ok(p)
    ensures Has(p, "description") ==> (r.Ok? <==> At(p, "description").Str? || At(p, "description").Arr?)
    ensures Has(p, "description") && At(p, "description").Str? ==>
              r == Ok(Put(p, "description", Str(At(p, "description").s + add)))
    ensures r.Ok? ==> forall k :: k != "description" ==> Get(r.value, k) == Get(p, k)
  {
    if !Has(p, "description") then Ok(p)
    else
      var d :- PlusAssign(At(p, "description"), add);
      Ok(Put(p, "description", d))
  }

  /** `_add_enum(property_)`. A required binding copies `enum_values` into
      `enum`; but the addendum is only bound for the other strengths, so a
      required binding with a description raises UnboundLocalError. Any
      other strength has its addendum appended to the description. */
  function AddEnum(p: Fields): (r: Result<Fields>)
    ensures !Has(p, "enum_values") ==> r == Ok(p)
    ensures Has(p, "enum_values") && !Has(p, "binding_strength") ==> r == Err(KeyError("binding_strength"))
    ensures Has(p, "enum_values") && Get(p, "binding_strength") == Some(Str("required")) ==>
              (r.Ok? <==> !Has(p, "description")) &&
              (r.Ok? ==> Get(r.value, "enum") == Get(p, "enum_values")) &&
              (r.Err? ==> r.error == UnboundLocalError("description_addendum"))
    ensures Has(p, "enum_values") && Has(p, "binding_strength") && At(p, "binding_strength") != Str("required") ==>
              r == (var add :- Addendum(At(p, "binding_strength"), At(p, "enum_values")); AppendDescription(p, add))
  {
    if !Has(p, "enum_values") then Ok(p)
    else
      var strength :- Index(p, "binding_strength");
      if strength == Str("required") then
        var p1 := Put(p, "enum", At(p, "enum_values"));
        if Has(p1, "description") then Err(UnboundLocalError("description_addendum")) else Ok(p1)
      else
        var add :- Addendum(strength, At(p, "enum_values"));
        AppendDescription(p, add)
  }

  /** `_adjust_description(property_)`: for a binding that is not required,
      the addendum is appended to the description (again). */
  function AdjustDescription(p: Fields): (r: Result<Fields>)
    ensures !Has(p, "enum_values") ==> r == Ok(p)
    ensures Has(p, "enum_values") && Get(p, "binding_strength") == Some(Str("required")) ==> r == Ok(p)
    ensures Has(p, "enum_values") && Has(p, "binding_strength") && At(p, "binding_strength") != Str("required") ==>
              r == (var add :- Addendum(At(p, "binding_strength"), At(p, "enum_values")); AppendDescription(p, add))
  {
    if !Has(p, "enum_values") then Ok(p)
    else
      var strength :- Index(p, "binding_strength");
      if strength == Str("required") then Ok(p)
      else
        var add :- Addendum(strength, At(p, "enum_values"));
        AppendDescription(p, add)
  }

  /** The three binding helpers, in the order both concept loops call them. */
  function PrepareConcept(p: Json): (r: Result<Fields>)
    ensures r.Ok? ==> p.Obj?
  {
    if !p.Obj? then Err(TypeError("property is not a dict"))
    else
      var p1 :- AddTermDef(p.fields);
      var p2 :- AddEnum(p1);
      AdjustDescription(p2)
  }

  /** `_add_enum` and then `_adjust_description` on a property bound with a
      strength other than `required`: the addendum goes on twice. */
  lemma EnumThenAdjust(q: Fields, add: string)
    requires Has(q, "enum_values") && Has(q, "binding_strength")
    requires At(q, "binding_strength").Str? && At(q, "binding_strength") != Str("required")
    requires Addendum(At(q, "binding_strength"), At(q, "enum_values")) == Ok(add)
    requires Has(q, "description") && At(q, "description").Str?
    ensures AddEnum(q).Ok? && AdjustDescription(AddEnum(q).value).Ok?
    ensures Get(AdjustDescription(AddEnum(q).value).value, "description") ==
              Some(Str(At(q, "description").s + add + add))
  {
    assert "enum_values" != "description" && "binding_strength" != "description";
    var q2 := AddEnum(q).value;
    assert Get(q2, "enum_values") == Get(q, "enum_values");
    assert Get(q2, "binding_strength") == Get(q, "binding_strength");
  }

  /** A property bound with a strength other than `required`, string enum
      values and a string description ends up with the addendum appended to
      its description twice: once by `_add_enum`, once by
      `_adjust_description`. */
  lemma AddendumAppendedTwice(p: Fields)
    requires Has(p, "enum_values") && Has(p, "binding_strength")
    requires At(p, "binding_strength").Str? && At(p, "binding_strength") != Str("required")
    requires Addendum(At(p, "binding_strength"), At(p, "enum_values")).Ok?
    requires Has(p, "description") && At(p, "description").Str?
    ensures PrepareConcept(Obj(p)).Ok?
    ensures var add := Addendum(At(p, "binding_strength"), At(p, "enum_values")).value;
            Get(PrepareConcept(Obj(p)).value, "description") == Some(Str(At(p, "description").s + add + add))
  {
    assert "enum_values" != "term" && "binding_strength" != "term" && "description" != "term";
    var p1 := AddTermDef(p).value;
    EnumThenAdjust(p1, Addendum(At(p, "binding_strength"), At(p, "enum_values")).value);
  }

  /** A required binding with a description cannot be prepared. */
  lemma RequiredWithDescriptionFails(p: Fields)
    requires !Has(p, "binding_uri") || Has(p, "binding_strength")
    requires Has(p, "enum_values") && Get(p, "binding_strength") == Some(Str("required"))
    requires Has(p, "description")
    ensures PrepareConcept(Obj(p)) == Err(UnboundLocalError("description_addendum"))
  {
    assert "enum_values" != "term" && "binding_strength" != "term" && "description" != "term";
    var p1 := AddTermDef(p).value;
    assert Get(p1, "enum_values") == Get(p, "enum_values");
    assert Get(p1, "binding_strength") == Get(p, "binding_strength");
    assert Get(p1, "description") == Get(p, "description");
  }

  // ---------------------------------------------------------------------
  // `_add_coding` and the CodeableConcept pass

  /** `v` is `p` with its description prefixed by `prefix`. */
  ghost predicate Prefixed(v: Option<Json>, p: Fields, prefix: string)
    requires Has(p, "description")
  {
    v.Some? && v.value.Obj? &&
    Get(v.value.fields, "description") == Some(Str(prefix + Format(At(p, "description")))) &&
    forall k :: k != "description" ==> Get(v.value.fields, k) == Get(p, k)
  }

  /** A property rendered as a plain string: type string and no `$ref`. */
  ghost predicate StringTyped(v: Option<Json>)
  {
    v.Some? && v.value.Obj? && Get(v.value.fields, "type") == Some(Str("string")) && !Has(v.value.fields, "$ref")
  }

  /** A list property whose items are rendered as plain strings. */
  ghost predicate StringItems(v: Option<Json>)
  {
    v.Some? && v.value.Obj? && StringTyped(Get(v.value.fields, "items"))
  }

  /** A property whose description is a string starting with `prefix`. */
  ghost predicate DescribedAs(v: Option<Json>, prefix: string)
  {
    v.Some? && v.value.Obj? && Get(v.value.fields, "description").Some? &&
    Get(v.value.fields, "description").value.Str? && StartsWith(Get(v.value.fields, "description").value.s, prefix)
  }

  /** `_add_coding(schema, name, property_)`: `{name}_coding` gets a copy of
      the property with a `[system#code representation.]` description; the
      `[text representation.]` copy is built but never stored, so
      `{name}_text` receives the coding copy as well. */
  function AddCoding(props: Fields, name: string, p: Fields): (r: Result<Fields>)
    ensures r.Ok? <==> Has(p, "description")
    ensures r.Err? ==> r.error == KeyError("description")
    ensures r.Ok? ==> Prefixed(Get(r.value, name + "_coding"), p, "[system#code representation.] ")
    ensures r.Ok? ==> Get(r.value, name + "_text") == Get(r.value, name + "_coding")
    ensures r.Ok? ==> forall k :: !Touches(name, ["_coding", "_text"], k) ==> Get(r.value, k) == Get(props, k)
  {
    var desc :- Index(p, "description");
    var coding := Put(p, "description", Str("[system#code representation.] " + Format(desc)));
    var r := Put(Put(props, name + "_coding", Obj(coding)), name + "_text", Obj(coding));
    CodingKeys(name);
    Ok(r)
  }

  /** The stored `_text` copy is the coding copy: its description is the
      `[system#code representation.]` one, never the text one. */
  lemma TextCopyIsCodingCopy(props: Fields, name: string, p: Fields)
    requires Has(p, "description")
    ensures AddCoding(props, name, p).Ok?
    ensures Prefixed(Get(AddCoding(props, name, p).value, name + "_text"), p, "[system#code representation.] ")
  {
  }

  /** The final description assignment of both concept loops. */
  function TextRepresentation(props: Fields, name: string, q: Fields): (r: Fields)
    requires Has(q, "description")
    ensures Prefixed(Get(r, name), q, "text representation. ")
    ensures DescribedAs(Get(r, name), "text representation. ")
    ensures forall k :: k != name ==> Get(r, k) == Get(props, k)
  {
    PrefixOf("text representation. ", Format(At(q, "description")));
    Put(props, name, Obj(Put(q, "description", Str("text representation. " + Format(At(q, "description"))))))
  }

  /** `del property_['items']['$ref']; property_['items']['type'] = 'string'` */
  function WithStringItems(q: Fields): (r: Result<Fields>)
    ensures r.Ok? ==> StringTyped(Get(r.value, "items"))
    ensures r.Ok? ==> forall k :: k != "items" ==> Get(r.value, k) == Get(q, k)
  {
    var items :- ObjAt(q, "items");
    var items1 :- DelKey(items, "$ref");
    Ok(Put(q, "items", Obj(Put(items1, "type", Str("string")))))
  }

  /** `del property_['$ref']; property_['type'] = 'string'` */
  function AsString(q: Fields): (r: Result<Fields>)
    ensures r.Ok? ==> StringTyped(Some(Obj(r.value)))
    ensures r.Ok? ==> forall k :: k != "type" && k != "$ref" ==> Get(r.value, k) == Get(q, k)
  {
    var q1 :- DelKey(q, "$ref");
    Ok(Put(q1, "type", Str("string")))
  }

  /** Rewriting a key other than `description` keeps the description. */
  lemma DescriptionKept(q: Fields, q1: Fields, k: string)
    requires k != "description" && forall k' :: k' != k ==> Get(q1, k') == Get(q, k')
    ensures Get(q1, "description") == Get(q, "description")
  {
  }

  /** One iteration of the list loop: prepare the binding, turn `items` into
      a plain string, add the coding copies, prefix the description. */
  function ListConceptStep(props: Fields, name: string, p: Json): (r: Result<Fields>)
    ensures r.Ok? ==> forall k :: !Touches(name, ["_coding", "_text"], k) ==> Get(r.value, k) == Get(props, k)
    ensures r.Ok? ==> Get(r.value, name + "_text") == Get(r.value, name + "_coding")
    ensures r.Ok? ==> StringItems(Get(r.value, name)) && DescribedAs(Get(r.value, name), "text representation. ")
    ensures r.Ok? ==> DescribedAs(Get(r.value, name + "_coding"), "[system#code representation.] ")
  {
    var q :- PrepareConcept(p);
    var q1 :- WithStringItems(q);
    DescriptionKept(q, q1, "items");
    CodedAndDescribed(props, name, q1)
  }

  /** One iteration of the scalar loop: the same, on the property itself. */
  function ScalarConceptStep(props: Fields, name: string, p: Json): (r: Result<Fields>)
    ensures r.Ok? ==> forall k :: !Touches(name, ["_coding", "_text"], k) ==> Get(r.value, k) == Get(props, k)
    ensures r.Ok? ==> Get(r.value, name + "_text") == Get(r.value, name + "_coding")
    ensures r.Ok? ==> StringTyped(Get(r.value, name)) && DescribedAs(Get(r.value, name), "text representation. ")
    ensures r.Ok? ==> DescribedAs(Get(r.value, name + "_coding"), "[system#code representation.] ")
  {
    var q :- PrepareConcept(p);
    var q2 :- AsString(q);
    CodedAndDescribed(props, name, q2)
  }

  /** The three keys one concept iteration writes are distinct. */
  lemma CodingKeys(name: string)
    ensures name != name + "_coding" && name != name + "_text" && name + "_coding" != name + "_text"
    ensures forall k :: !Touches(name, ["_coding", "_text"], k) ==> k != name && k != name + "_coding" && k != name + "_text"
  {
    assert |name + "_coding"| != |name| && |name + "_text"| != |name| && |name + "_coding"| != |name + "_text"|;
    assert ["_coding", "_text"][0] == "_coding" && ["_coding", "_text"][1] == "_text";
  }

  /** The end of both concept iterations: the coding copies, then the
      `text representation.` prefix on the property itself. */
  function CodedAndDescribed(props: Fields, name: string, q: Fields): (r: Result<Fields>)
    ensures r.Ok? <==> Has(q, "description")
    ensures r.Ok? ==> Get(r.value, name + "_text") == Get(r.value, name + "_coding")
    ensures r.Ok? ==> Prefixed(Get(r.value, name), q, "text representation. ")
    ensures r.Ok? ==> DescribedAs(Get(r.value, name), "text representation. ")
    ensures r.Ok? ==> Prefixed(Get(r.value, name + "_coding"), q, "[system#code representation.] ")
    ensures r.Ok? ==> DescribedAs(Get(r.value, name + "_coding"), "[system#code representation.] ")
    ensures r.Ok? ==> forall k :: !Touches(name, ["_coding", "_text"], k) ==> Get(r.value, k) == Get(props, k)
  {
    var props1 :- AddCoding(props, name, q);
    CodingKeys(name);
    PrefixOf("[system#code representation.] ", Format(At(q, "description")));
    Ok(TextRepresentation(props1, name, q))
  }

  /** `_simplify_codeable_concepts` on one schema: lists of CodeableConcept
      or CodeableReference first, then scalars of those types, each snapshot
      taken when its loop starts. */
  function CodeableConcepts(schema: Fields): (r: Result<Fields>)
  {
    var a :- ListOfType(schema, "CodeableConcept");
    var b :- ListOfType(schema, "CodeableReference");
    var s1 :- Pass(schema, Update(a, b), ListConceptStep, ["_coding", "_text"]);
    var c :- ScalarOfType(s1, "CodeableConcept");
    var d :- ScalarOfType(s1, "CodeableReference");
    Pass(s1, Update(c, d), ScalarConceptStep, ["_coding", "_text"])
  }

  /** The pass as the source's two loops. */
  method SimplifyCodeableConcepts(schema: Fields) returns (r: Result<Fields>)
    ensures r == CodeableConcepts(schema)
  {
    var a := ListOfType(schema, "CodeableConcept");
    if a.Err? { return Err(a.error); }
    var b := ListOfType(schema, "CodeableReference").value;
    var s1 := RunPass(schema, Update(a.value, b), ListConceptStep, ["_coding", "_text"]);
    if s1.Err? { return Err(s1.error); }
    var c := ScalarOfType(s1.value, "CodeableConcept");
    if c.Err? { return Err(c.error); }
    var d := ScalarOfType(s1.value, "CodeableReference").value;
    r := RunPass(s1.value, Update(c.value, d), ScalarConceptStep, ["_coding", "_text"]);
  }

  /** A key an iteration stores a new dict under is detached from then on. */
  lemma Rebinds(n: string, seen: seq<string>, sfx: seq<string>, j: nat)
    requires j < |sfx|
    ensures Detached(n + sfx[j], seen + [n], sfx)
  {
    assert n in seen + [n];
  }

  /** The entries after entry `i` leave `k` alone, except the entry named
      `k` itself. */
  lemma Later(snap: Fields, i: nat, rest: Fields, sfx: seq<string>, k: string)
    requires i < |snap| && rest == snap[i+1..]
    requires forall j :: i < j < |snap| ==> snap[j].0 == k || !Touches(snap[j].0, sfx, k)
    ensures forall j :: 0 <= j < |rest| ==> rest[j].0 == k || !Touches(rest[j].0, sfx, k)
  {
    forall j | 0 <= j < |rest|
      ensures rest[j].0 == k || !Touches(rest[j].0, sfx, k)
    {
      assert rest[j] == snap[i + 1 + j];
    }
  }

  /** What the iteration for entry `i` stores under `{name}` + `sfx[s]`
      is still there at the end, as long as no later entry other than the
      property of that name writes it. */
  lemma StoredSurvives(props: Fields, snap: Fields, step: Step, sfx: seq<string>, i: nat, s: nat)
    returns (mid: Fields, seen: seq<string>)
    requires Framed(step, sfx) && i < |snap| && s < |sfx| && Fold(props, snap, step, sfx, []).Ok?
    requires forall j :: i < j < |snap| ==>
               snap[j].0 == snap[i].0 + sfx[s] || !Touches(snap[j].0, sfx, snap[i].0 + sfx[s])
    ensures step(mid, snap[i].0, snap[i].1).Ok?
    ensures snap[i].0 + sfx[s] != snap[i].0 ==>
              Get(Fold(props, snap, step, sfx, []).value, snap[i].0 + sfx[s]) ==
              Get(step(mid, snap[i].0, snap[i].1).value, snap[i].0 + sfx[s])
  {
    var n := snap[i].0;
    mid, seen := FoldAt(props, snap, step, sfx, [], i);
    var after := Visit(mid, n, snap[i].1, step, sfx, seen).value;
    Rebinds(n, seen, sfx, s);
    Later(snap, i, snap[i+1..], sfx, n + sfx[s]);
    FoldKeeps(after, snap[i+1..], step, sfx, seen + [n], n + sfx[s]);
  }

  /** After a successful list loop, the `_text` and `_coding` entries of
      entry `i` are its coding copy, as long as no later entry other than
      the `_coding` or `_text` property itself writes them: a snapshot
      entry of that name is rewritten detached and leaves the copy in
      place. */
  lemma ListCopiesAgree(props: Fields, snap: Fields, i: nat)
    requires i < |snap| && Fold(props, snap, ListConceptStep, ["_coding", "_text"], []).Ok?
    requires forall j :: i < j < |snap| ==>
               snap[j].0 == snap[i].0 + "_coding" || !Touches(snap[j].0, ["_coding", "_text"], snap[i].0 + "_coding")
    requires forall j :: i < j < |snap| ==>
               snap[j].0 == snap[i].0 + "_text" || !Touches(snap[j].0, ["_coding", "_text"], snap[i].0 + "_text")
    ensures var r := Fold(props, snap, ListConceptStep, ["_coding", "_text"], []).value;
            Get(r, snap[i].0 + "_text") == Get(r, snap[i].0 + "_coding") &&
            DescribedAs(Get(r, snap[i].0 + "_coding"), "[system#code representation.] ")
  {
    var sfx := ["_coding", "_text"];
    var n := snap[i].0;
    var mid, seen := FoldAt(props, snap, ListConceptStep, sfx, [], i);
    var after := Visit(mid, n, snap[i].1, ListConceptStep, sfx, seen).value;
    CodingKeys(n);
    Rebinds(n, seen, sfx, 0);
    Rebinds(n, seen, sfx, 1);
    Later(snap, i, snap[i+1..], sfx, n + "_coding");
    Later(snap, i, snap[i+1..], sfx, n + "_text");
    FoldKeeps(after, snap[i+1..], ListConceptStep, sfx, seen + [n], n + "_coding");
    FoldKeeps(after, snap[i+1..], ListConceptStep, sfx, seen + [n], n + "_text");
  }

  /** The same for the scalar loop. */
  lemma ScalarCopiesAgree(props: Fields, snap: Fields, i: nat)
    requires i < |snap| && Fold(props, snap, ScalarConceptStep, ["_coding", "_text"], []).Ok?
    requires forall j :: i < j < |snap| ==>
               snap[j].0 == snap[i].0 + "_coding" || !Touches(snap[j].0, ["_coding", "_text"], snap[i].0 + "_coding")
    requires forall j :: i < j < |snap| ==>
               snap[j].0 == snap[i].0 + "_text" || !Touches(snap[j].0, ["_coding", "_text"], snap[i].0 + "_text")
    ensures var r := Fold(props, snap, ScalarConceptStep, ["_coding", "_text"], []).value;
            Get(r, snap[i].0 + "_text") == Get(r, snap[i].0 + "_coding") &&
            DescribedAs(Get(r, snap[i].0 + "_coding"), "[system#code representation.] ")
  {
    var sfx := ["_coding", "_text"];
    var n := snap[i].0;
    var mid, seen := FoldAt(props, snap, ScalarConceptStep, sfx, [], i);
    var after := Visit(mid, n, snap[i].1, ScalarConceptStep, sfx, seen).value;
    CodingKeys(n);
    Rebinds(n, seen, sfx, 0);
    Rebinds(n, seen, sfx, 1);
    Later(snap, i, snap[i+1..], sfx, n + "_coding");
    Later(snap, i, snap[i+1..], sfx, n + "_text");
    FoldKeeps(after, snap[i+1..], ScalarConceptStep, sfx, seen + [n], n + "_coding");
    FoldKeeps(after, snap[i+1..], ScalarConceptStep, sfx, seen + [n], n + "_text");
  }

  /** `{n}_text` is not a key the iteration for `{n}_coding` writes. */
  lemma TextNotCoding(n: string)
    ensures !Touches(n + "_coding", ["_coding", "_text"], n + "_text")
  {
    var sfx := ["_coding", "_text"];
    assert |n + "_text"| < |n + "_coding"| < |n + "_coding" + sfx[0]| && |n + "_coding"| < |n + "_coding" + sfx[1]|;
  }

  /** A list property `n` followed in the snapshot by a list property
      `{n}_coding`: the second iteration works on its detached original, so
      `{n}_coding` stays the first iteration's coding copy, while that
      iteration's own `_coding` and `_text` entries are still stored. */
  lemma DetachedCodingEntry(props: Fields, snap: Fields, i: nat, j: nat)
    requires i < j < |snap| && snap[j].0 == snap[i].0 + "_coding"
    requires Fold(props, snap, ListConceptStep, ["_coding", "_text"], []).Ok?
    requires forall l :: i < l < |snap| && l != j ==>
               !Touches(snap[l].0, ["_coding", "_text"], snap[i].0 + "_coding") &&
               !Touches(snap[l].0, ["_coding", "_text"], snap[i].0 + "_text")
    requires forall l :: j < l < |snap| ==>
               !Touches(snap[l].0, ["_coding", "_text"], snap[j].0 + "_coding") &&
               !Touches(snap[l].0, ["_coding", "_text"], snap[j].0 + "_text")
    ensures var r := Fold(props, snap, ListConceptStep, ["_coding", "_text"], []).value;
            DescribedAs(Get(r, snap[j].0), "[system#code representation.] ") &&
            DescribedAs(Get(r, snap[j].0 + "_coding"), "[system#code representation.] ")
  {
    var sfx := ["_coding", "_text"];
    var n := snap[i].0;
    CodingKeys(n);
    forall l | i < l < |snap|
      ensures snap[l].0 == n + "_coding" || !Touches(snap[l].0, sfx, n + "_coding")
    {
    }
    forall l | i < l < |snap|
      ensures snap[l].0 == n + "_text" || !Touches(snap[l].0, sfx, n + "_text")
    {
      if l == j {
        assert !Touches(snap[l].0, sfx, n + "_text") by { TextNotCoding(n); }
      }
    }
    ListCopiesAgree(props, snap, i);
    ListCopiesAgree(props, snap, j);
  }

  // ---------------------------------------------------------------------
  // `_simplify_quantities`

  /** The prefix of the quantity descriptions. */
  function TextDescribed(p: Fields): (r: Result<Fields>)
    ensures r.Ok? <==> Has(p, "description")
    ensures r.Ok? ==> Prefixed(Some(Obj(r.value)), p, "text representation. ")
  {
    var desc :- Index(p, "description");
    Ok(Put(p, "description", Str("text representation. " + Format(desc))))
  }

  /** One iteration of the list loop: prefix the description, make the items
      a string without `$ref` (KeyError when there is none). */
  function ListQuantityStep(props: Fields, name: string, p: Json): (r: Result<Fields>)
    ensures r.Ok? ==> forall k :: k != name ==> Get(r.value, k) == Get(props, k)
    ensures r.Ok? ==> p.Obj? && Has(p.fields, "description")
    ensures r.Ok? ==> (Get(r.value, name).Some? && Get(r.value, name).value.Obj? &&
              Get(Get(r.value, name).value.fields, "description") ==
                Some(Str("text representation. " + Format(At(p.fields, "description")))) &&
              match Get(Get(r.value, name).value.fields, "items")
              case Some(Obj(items)) => Get(items, "type") == Some(Str("string")) && !Has(items, "$ref")
              case _ => false)
  {
    if !p.Obj? then Err(TypeError("property is not a dict"))
    else
      var q :- TextDescribed(p.fields);
      var items :- ObjAt(q, "items");
      var items1 :- DelKey(Put(items, "type", Str("string")), "$ref");
      Ok(Put(props, name, Obj(Put(q, "items", Obj(items1)))))
  }

  /** `{'type': ty, 'title': title}` as `v` */
  predicate TypedTitle(v: Option<Json>, ty: string, title: string)
  {
    v.Some? && v.value.Obj? &&
    Get(v.value.fields, "type") == Some(Str(ty)) && Get(v.value.fields, "title") == Some(Str(title))
  }

  /** `{'type': ty, 'title': title}` */
  function TypeTitle(ty: string, title: string): (r: Json)
    ensures TypedTitle(Some(r), ty, title)
  {
    GetCons("type", Str(ty), [("title", Str(title))], "title");
    Obj([("type", Str(ty)), ("title", Str(title))])
  }

  /** `f"Unit representation. {title}"` */
  function UnitTitle(title: string): string
  {
    "Unit representation. " + title
  }

  /** `f"Numerical value (with implicit precision) representation. {title}"` */
  function ValueTitle(title: string): string
  {
    "Numerical value (with implicit precision) representation. " + title
  }

  /** `schema['properties'][f"{name}_unit"] = {...}`, the same for
      `_value`, both titled after the property's title, then the rewritten
      property `v` itself. */
  function Companions(props: Fields, name: string, title: string, v: Json): (r: Fields)
    ensures TypedTitle(Get(r, name + "_unit"), "string", UnitTitle(title))
    ensures TypedTitle(Get(r, name + "_value"), "number", ValueTitle(title))
    ensures Get(r, name) == Some(v)
    ensures forall k :: !Touches(name, ["_unit", "_value"], k) ==> Get(r, k) == Get(props, k)
  {
    QuantityKeys(name);
    Put(Put(Put(props, name + "_unit", TypeTitle("string", UnitTitle(title))),
            name + "_value", TypeTitle("number", ValueTitle(title))), name, v)
  }

  /** One iteration of the scalar loop: the `_unit` and `_value` companions,
      then the description prefix. */
  function ScalarQuantityStep(props: Fields, name: string, p: Json): (r: Result<Fields>)
    ensures r.Ok? <==> p.Obj? && Has(p.fields, "title") && Has(p.fields, "description")
    ensures r.Ok? ==> forall k :: !Touches(name, ["_unit", "_value"], k) ==> Get(r.value, k) == Get(props, k)
    ensures r.Ok? ==> TypedTitle(Get(r.value, name + "_unit"), "string",
                                 UnitTitle(Format(At(p.fields, "title"))))
    ensures r.Ok? ==> TypedTitle(Get(r.value, name + "_value"), "number",
                                 ValueTitle(Format(At(p.fields, "title"))))
  {
    if !p.Obj? then Err(TypeError("property is not a dict"))
    else
      var title :- Index(p.fields, "title");
      var q :- TextDescribed(p.fields);
      Ok(Companions(props, name, Format(title), Obj(q)))
  }

  /** A scalar quantity keeps its other keys and gets the `text
      representation.` description prefix. */
  lemma ScalarQuantityDescribed(props: Fields, name: string, p: Json)
    requires ScalarQuantityStep(props, name, p).Ok?
    ensures Prefixed(Get(ScalarQuantityStep(props, name, p).value, name), p.fields, "text representation. ")
  {
  }

  /** A property's own name and its two companions are three keys. */
  lemma QuantityKeys(name: string)
    ensures name != name + "_unit" && name != name + "_value" && name + "_unit" != name + "_value"
    ensures forall k :: !Touches(name, ["_unit", "_value"], k) ==> k != name && k != name + "_unit" && k != name + "_value"
  {
    assert |name + "_unit"| != |name| && |name + "_value"| != |name| && |name + "_unit"| != |name + "_value"|;
    assert ["_unit", "_value"][0] == "_unit" && ["_unit", "_value"][1] == "_value";
  }

  /** `_simplify_quantities` on one schema. */
  function Quantities(schema: Fields): (r: Result<Fields>)
  {
    var a :- ListOfType(schema, "Quantity");
    var s1 :- Pass(schema, a, ListQuantityStep, []);
    var c :- ScalarOfType(s1, "Quantity");
    Pass(s1, c, ScalarQuantityStep, ["_unit", "_value"])
  }

  /** The pass as the source's two loops. */
  method SimplifyQuantities(schema: Fields) returns (r: Result<Fields>)
    ensures r == Quantities(schema)
  {
    var a := ListOfType(schema, "Quantity");
    if a.Err? { return Err(a.error); }
    var s1 := RunPass(schema, a.value, ListQuantityStep, []);
    if s1.Err? { return Err(s1.error); }
    var c := ScalarOfType(s1.value, "Quantity");
    if c.Err? { return Err(c.error); }
    r := RunPass(s1.value, c.value, ScalarQuantityStep, ["_unit", "_value"]);
  }

  /** A scalar Quantity `q` ends the loop with `q_unit` (string) and
      `q_value` (number), as long as no later entry writes those keys; a
      later `q_unit` or `q_value` Quantity of the snapshot is rewritten
      detached and leaves them in place. */
  lemma QuantityGainsUnitAndValue(props: Fields, snap: Fields, i: nat)
    requires i < |snap|
    requires Fold(props, snap, ScalarQuantityStep, ["_unit", "_value"], []).Ok?
    requires forall j :: i < j < |snap| ==>
               (snap[j].0 == snap[i].0 + "_unit" || !Touches(snap[j].0, ["_unit", "_value"], snap[i].0 + "_unit")) &&
               (snap[j].0 == snap[i].0 + "_value" || !Touches(snap[j].0, ["_unit", "_value"], snap[i].0 + "_value"))
    ensures snap[i].1.Obj? && Has(snap[i].1.fields, "title")
    ensures var r := Fold(props, snap, ScalarQuantityStep, ["_unit", "_value"], []).value;
            var title := Format(At(snap[i].1.fields, "title"));
            TypedTitle(Get(r, snap[i].0 + "_unit"), "string", UnitTitle(title)) &&
            TypedTitle(Get(r, snap[i].0 + "_value"), "number", ValueTitle(title))
  {
    var sfx := ["_unit", "_value"];
    QuantityKeys(snap[i].0);
    var mid, seen := StoredSurvives(props, snap, ScalarQuantityStep, sfx, i, 0);
    mid, seen := StoredSurvives(props, snap, ScalarQuantityStep, sfx, i, 1);
  }

  // ---------------------------------------------------------------------
  // `_simplify_embedded_types`

  /** `[Text representation of {ref without .yaml}] {description}` */
  function EmbeddedDescription(ref: Json, p: Fields): (r: Result<string>)
    ensures r.Ok? <==> ref.Str? && Has(p, "description")
    ensures r.Ok? ==> r.value == "[Text representation of " + Replace(ref.s, ".yaml", "") + "] " + Format(At(p, "description"))
    ensures r.Err? && !ref.Str? ==> r.error == AttributeError("replace")
  {
    if !ref.Str? then Err(AttributeError("replace"))
    else
      var desc :- Index(p, "description");
      Ok("[Text representation of " + Replace(ref.s, ".yaml", "") + "] " + Format(desc))
  }

  /** One iteration of the list loop: describe the property after its item
      type, then make the items a string without `$ref`. */
  function ListEmbeddedStep(props: Fields, name: string, p: Json): (r: Result<Fields>)
    ensures r.Ok? ==> forall k :: k != name ==> Get(r.value, k) == Get(props, k)
    ensures r.Ok? ==> (p.Obj? && Get(p.fields, "items").Some? && Get(p.fields, "items").value.Obj? &&
              Has(Get(p.fields, "items").value.fields, "$ref"))
    ensures r.Ok? ==> (Get(r.value, name).Some? && Get(r.value, name).value.Obj? &&
              match Get(Get(r.value, name).value.fields, "items")
              case Some(Obj(items)) => Get(items, "type") == Some(Str("string")) && !Has(items, "$ref")
              case _ => false)
  {
    if !p.Obj? then Err(TypeError("property is not a dict"))
    else
      var items :- ObjAt(p.fields, "items");
      var ref :- Index(items, "$ref");
      var d :- EmbeddedDescription(ref, p.fields);
      var q := Put(p.fields, "description", Str(d));
      Ok(Put(props, name, Obj(Put(q, "items", Obj(Del(Put(items, "type", Str("string")), "$ref"))))))
  }

  /** One iteration of the scalar loop: the same, on the property itself. */
  function ScalarEmbeddedStep(props: Fields, name: string, p: Json): (r: Result<Fields>)
    ensures r.Ok? <==> p.Obj? && Get(p.fields, "$ref").Some? && Get(p.fields, "$ref").value.Str? && Has(p.fields, "description")
    ensures r.Ok? ==> forall k :: k != name ==> Get(r.value, k) == Get(props, k)
    ensures r.Ok? ==> (Get(r.value, name).Some? && Get(r.value, name).value.Obj? &&
              Get(Get(r.value, name).value.fields, "type") == Some(Str("string")) &&
              !Has(Get(r.value, name).value.fields, "$ref") &&
              Get(Get(r.value, name).value.fields, "description") ==
                Some(Str("[Text representation of " + Replace(At(p.fields, "$ref").s, ".yaml", "") + "] " +
                         Format(At(p.fields, "description")))))
  {
    if !p.Obj? then Err(TypeError("property is not a dict"))
    else
      var ref :- Index(p.fields, "$ref");
      var d :- EmbeddedDescription(ref, p.fields);
      Ok(Put(props, name, Obj(Del(Put(Put(p.fields, "description", Str(d)), "type", Str("string")), "$ref"))))
  }

  /** `_simplify_embedded_types` on one schema: lists first, then scalars. */
  function EmbeddedTypes(schema: Fields): (r: Result<Fields>)
  {
    var a :- ListOfAnyType(schema);
    var s1 :- Pass(schema, a, ListEmbeddedStep, []);
    var c :- ScalarOfAnyType(s1);
    Pass(s1, c, ScalarEmbeddedStep, [])
  }

  /** The pass as the source's two loops. */
  method SimplifyEmbeddedTypes(schema: Fields) returns (r: Result<Fields>)
    ensures r == EmbeddedTypes(schema)
  {
    var a := ListOfAnyType(schema);
    if a.Err? { return Err(a.error); }
    var s1 := RunPass(schema, a.value, ListEmbeddedStep, []);
    if s1.Err? { return Err(s1.error); }
    var c := ScalarOfAnyType(s1.value);
    if c.Err? { return Err(c.error); }
    r := RunPass(s1.value, c.value, ScalarEmbeddedStep, []);
  }

  /** No entry after `i` is named `k`, so none of them writes it. */
  lemma Unvisited(snap: Fields, i: nat, rest: Fields, k: string)
    requires i < |snap| && rest == snap[i+1..]
    requires forall j :: i < j < |snap| ==> snap[j].0 != k
    ensures forall j :: 0 <= j < |rest| ==> !Touches(rest[j].0, [], k)
  {
    forall j | 0 <= j < |rest|
      ensures !Touches(rest[j].0, [], k)
    {
      assert rest[j] == snap[i + 1 + j];
    }
  }

  /** After a successful scalar loop, the last entry for each name has become
      a plain string without `$ref`. */
  lemma EmbeddedScalarsStringified(props: Fields, snap: Fields, i: nat)
    requires i < |snap|
    requires Fold(props, snap, ScalarEmbeddedStep, [], []).Ok?
    requires forall j :: i < j < |snap| ==> snap[j].0 != snap[i].0
    ensures var v := Get(Fold(props, snap, ScalarEmbeddedStep, [], []).value, snap[i].0);
            v.Some? && v.value.Obj? && Get(v.value.fields, "type") == Some(Str("string")) && !Has(v.value.fields, "$ref")
  {
    var mid, seen := FoldAt(props, snap, ScalarEmbeddedStep, [], [], i);
    assert !Detached(snap[i].0, seen, []);
    var after := ScalarEmbeddedStep(mid, snap[i].0, snap[i].1).value;
    var rest := snap[i+1..];
    Unvisited(snap, i, rest, snap[i].0);
    FoldFrame(after, rest, ScalarEmbeddedStep, [], seen + [snap[i].0], snap[i].0);
  }

  /** After a successful list loop, the last entry for each name has items of
      type string without `$ref`. */
  lemma EmbeddedListsStringified(props: Fields, snap: Fields, i: nat)
    requires i < |snap|
    requires Fold(props, snap, ListEmbeddedStep, [], []).Ok?
    requires forall j :: i < j < |snap| ==> snap[j].0 != snap[i].0
    ensures var v := Get(Fold(props, snap, ListEmbeddedStep, [], []).value, snap[i].0);
            v.Some? && v.value.Obj? &&
            match Get(v.value.fields, "items")
            case Some(Obj(items)) => Get(items, "type") == Some(Str("string")) && !Has(items, "$ref")
            case _ => false
  {
    var mid, seen := FoldAt(props, snap, ListEmbeddedStep, [], [], i);
    assert !Detached(snap[i].0, seen, []);
    var after := ListEmbeddedStep(mid, snap[i].0, snap[i].1).value;
    var rest := snap[i+1..];
    Unvisited(snap, i, rest, snap[i].0);
    FoldFrame(after, rest, ListEmbeddedStep, [], seen + [snap[i].0], snap[i].0);
  }
}
