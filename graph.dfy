// Association schemas and their instances. An association schema is a JSON
// schema whose `links` are link description objects (JSON Hyper-Schema,
// draft 2019-09, section 6); a link's `targetHints` say whether it is an
// association, its multiplicity and its direction. An association instance
// is an edge: one instance link per schema link, each href a filled-in copy
// of the schema link's href template.

module Graph {

  import opened Text
  import opened Json
  import opened HrefTemplate
  import JsonPointer

  // ---------------------------------------------------------------------
  // Target hints

  datatype Hints = Hints(directionality: Json, multiplicity: Json, association: Json)

  /** `next(iter(c), default)` */
  function FirstOr(c: Json, default: Json): (r: Result<Json>)
    ensures c.Arr? ==> r == Ok(if c.items == [] then default else c.items[0])
    ensures r.Err? <==> !(c.Obj? || c.Str? || c.Arr?)
  {
    var xs :- Iterate(c);
    Ok(if xs == [] then default else xs[0])
  }

  /** `j.get(k, default)` on a value that must be a dict. */
  function GetOrJ(j: Json, k: string, default: Json): (r: Result<Json>)
    ensures r.Ok? <==> j.Obj?
    ensures j.Obj? ==> r.value == GetOr(j.fields, k, default)
  {
    var o :- ObjGet(j, k);
    Ok(if o.Some? then o.value else default)
  }

  /** `_extract_target_hints`: the first element of each hint list, with the
      defaults `one`, `has_many` and False. */
  function TargetHints(link: Json): (r: Result<Hints>)
  {
    var th :- GetOrJ(link, "targetHints", Obj([]));
    var m :- GetOrJ(th, "multiplicity", Arr([]));
    var multiplicity :- FirstOr(m, Str("has_many"));
    var d :- GetOrJ(th, "directionality", Arr([]));
    var directionality :- FirstOr(d, Str("one"));
    var a :- GetOrJ(th, "association", Arr([]));
    var association :- FirstOr(a, Bool(false));
    Ok(Hints(directionality, multiplicity, association))
  }

  /** The hints object of a link, empty when the link has none. */
  function HintsObj(f: Fields): Fields
  {
    match Get(f, "targetHints")
    case Some(Obj(th)) => th
    case _ => []
  }

  /** A hint given as a list, or not given at all. */
  predicate ListHint(th: Fields, k: string)
  {
    Get(th, k).None? || Get(th, k).value.Arr?
  }

  /** The first element of a listed hint, or the default. */
  function HintOr(th: Fields, k: string, default: Json): Json
  {
    match Get(th, k)
    case Some(Arr(xs)) => if xs != [] then xs[0] else default
    case _ => default
  }

  /** Each hint is the first element of its list, or its default when the
      list, or the whole `targetHints`, is absent or empty. */
  lemma HintsOf(f: Fields)
    requires Get(f, "targetHints").None? || Get(f, "targetHints").value.Obj?
    requires ListHint(HintsObj(f), "multiplicity") && ListHint(HintsObj(f), "directionality")
    requires ListHint(HintsObj(f), "association")
    ensures TargetHints(Obj(f)) == Ok(Hints(HintOr(HintsObj(f), "directionality", Str("one")),
                                            HintOr(HintsObj(f), "multiplicity", Str("has_many")),
                                            HintOr(HintsObj(f), "association", Bool(false))))
  {
    var th := HintsObj(f);
    assert GetOrJ(Obj(f), "targetHints", Obj([])) == Ok(Obj(th));
  }

  // ---------------------------------------------------------------------
  // Association schemas

  /** `is_association`'s loop from a link on: True at the first link whose
      association hint is truthy. */
  function AssociationFrom(links: seq<Json>): (r: Result<bool>)
    decreases |links|
  {
    if links == [] then Ok(false)
    else
      var h :- TargetHints(links[0]);
      if Truthy(h.association) then Ok(true) else AssociationFrom(links[1..])
  }

  /** `AssociationSchema.is_association(schema)` */
  function IsAssociationOf(schema: Json): (r: Result<bool>)
  {
    var has :- InJ("links", schema);
    if !has then Ok(false)
    else
      var links :- Subscript(schema, Str("links"));
      var items :- Iterate(links);
      AssociationFrom(items)
  }

  method IsAssociation(schema: Json) returns (r: Result<bool>)
    ensures r == IsAssociationOf(schema)
  {
    var has := InJ("links", schema);
    if has.Err? { return Err(has.error); }
    if !has.value { return Ok(false); }
    var links := Subscript(schema, Str("links"));
    if links.Err? { return Err(links.error); }
    var items := Iterate(links.value);
    if items.Err? { return Err(items.error); }
    var xs := items.value;
    var i := 0;
    while i < |xs|
      invariant 0 <= i <= |xs|
      invariant AssociationFrom(xs) == AssociationFrom(xs[i..])
    {
      assert xs[i..][0] == xs[i] && xs[i..][1..] == xs[i + 1..];
      var h := TargetHints(xs[i]);
      if h.Err? { return Err(h.error); }
      if Truthy(h.value.association) { return Ok(true); }
      i := i + 1;
    }
    return Ok(false);
  }

  /** With every link's hints readable, a schema's links form an association
      exactly when one of them has a truthy association hint. */
  lemma {:induction false} AssociationIff(links: seq<Json>)
    requires forall i :: 0 <= i < |links| ==> TargetHints(links[i]).Ok?
    ensures AssociationFrom(links) == Ok(exists i :: 0 <= i < |links| && Truthy(TargetHints(links[i]).value.association))
    decreases |links|
  {
    if links != [] {
      var h := TargetHints(links[0]).value;
      AssociationStep(links);
      if !Truthy(h.association) {
        AssociationIff(links[1..]);
        ExistsInTail(links, l => TargetHints(l).Ok? && Truthy(TargetHints(l).value.association));
      }
    }
  }

  /** Something holds of an item of a sequence whose head it does not hold
      of exactly when it holds of an item of the tail. */
  lemma ExistsInTail<T>(xs: seq<T>, p: T -> bool)
    requires xs != [] && !p(xs[0])
    ensures (exists i :: 0 <= i < |xs| && p(xs[i])) <==> (exists j :: 0 <= j < |xs[1..]| && p(xs[1..][j]))
  {
    if exists i :: 0 <= i < |xs| && p(xs[i]) {
      var i :| 0 <= i < |xs| && p(xs[i]);
      assert i > 0 && xs[1..][i - 1] == xs[i];
    }
    if exists j :: 0 <= j < |xs[1..]| && p(xs[1..][j]) {
      var j :| 0 <= j < |xs[1..]| && p(xs[1..][j]);
      assert xs[1..][j] == xs[j + 1];
    }
  }

  lemma AssociationStep(links: seq<Json>)
    requires links != [] && TargetHints(links[0]).Ok?
    ensures AssociationFrom(links) == if Truthy(TargetHints(links[0]).value.association) then Ok(true) else AssociationFrom(links[1..])
  {
  }

  /** `validate_schema_conventions`: links, at least two of them, an
      association among them and a title; AssertionError otherwise. */
  function ValidateConventions(schema: Json): (r: Result<bool>)
    ensures r.Ok? ==> r.value
    ensures r.Ok? ==> IsAssociationOf(schema) == Ok(true)
  {
    var has :- InJ("links", schema);
    if !has then Err(AssertionError("Schema should have links"))
    else
      var links :- Subscript(schema, Str("links"));
      var n :- Len(links);
      if n < 2 then Err(AssertionError("Association schema should have at least two links"))
      else
        var a :- IsAssociationOf(schema);
        if !a then Err(AssertionError("Schema links should be an association"))
        else
          var t := InJ("title", schema).value;
          if !t then Err(AssertionError("Schema should have a title")) else Ok(true)
  }

  /** A dict schema with a list of readable links passes the conventions
      exactly when it has two or more links, one of them an association, and
      a title. */
  lemma ConventionsOf(f: Fields, links: seq<Json>)
    requires Get(f, "links") == Some(Arr(links))
    requires forall i :: 0 <= i < |links| ==> TargetHints(links[i]).Ok?
    ensures ValidateConventions(Obj(f)).Ok? <==>
      |links| >= 2 && Has(f, "title") &&
      exists i :: 0 <= i < |links| && Truthy(TargetHints(links[i]).value.association)
  {
    AssociationIff(links);
    assert IsAssociationOf(Obj(f)) == AssociationFrom(links);
  }

  /** An association schema: a JSON schema that passed the conventions. */
  datatype AssociationSchema = AssociationSchema(schema: Json)

  /** `AssociationSchema(schema)`: a URL is fetched (the fetch is a parameter
      here), a dict is taken as it is, anything else is a ValueError; the
      document must pass the conventions. */
  function NewSchema(schema: Json, fetch: string -> Json): (r: Result<AssociationSchema>)
    ensures r.Ok? ==> ValidateConventions(r.value.schema) == Ok(true)
    ensures schema.Obj? ==> (r.Ok? <==> ValidateConventions(schema).Ok?)
    ensures r.Ok? && schema.Obj? ==> r.value.schema == schema
    ensures !schema.Obj? && !schema.Str? ==> r == Err(ValueError("Schema must be a URL or a dict"))
  {
    var doc :- if schema.Str? then Ok(fetch(schema.s))
               else if schema.Obj? then Ok(schema)
               else Err(ValueError("Schema must be a URL or a dict"));
    var ok :- ValidateConventions(doc);
    Ok(AssociationSchema(doc))
  }

  /** `[_['rel'] for _ in links]` */
  function RelsOf(links: seq<Json>): (r: Result<seq<Json>>)
    ensures r.Ok? ==> |r.value| == |links|
    ensures r.Ok? ==> forall i :: 0 <= i < |links| ==> Subscript(links[i], Str("rel")) == Ok(r.value[i])
    decreases |links|
  {
    if links == [] then Ok([])
    else
      var rel :- Subscript(links[0], Str("rel"));
      var rest :- RelsOf(links[1..]);
      assert forall i :: 0 < i < |links| ==> links[1..][i - 1] == links[i];
      Ok([rel] + rest)
  }

  /** The check loop of `validate_links`: each instance link's `rel` must be
      among the schema's. */
  function RelsKnown(items: seq<Json>, rels: seq<Json>): (r: Result<bool>)
    ensures r.Ok? ==> r.value
    decreases |items|
  {
    if items == [] then Ok(true)
    else
      var rel :- Subscript(items[0], Str("rel"));
      if rel in rels then RelsKnown(items[1..], rels)
      else Err(AssertionError("Instance of this association should have links to the schema's rels"))
  }

  /** `validate_links`: the instance back, when every instance link has a
      rel the schema's links have. */
  function ValidateLinksOf(s: AssociationSchema, instance: Json): (r: Result<Json>)
    ensures r.Ok? ==> r.value == instance
  {
    var links :- Subscript(s.schema, Str("links"));
    var items :- Iterate(links);
    var rels :- RelsOf(items);
    var ilinks :- Subscript(instance, Str("links"));
    var its :- Iterate(ilinks);
    var ok :- RelsKnown(its, rels);
    Ok(instance)
  }

  method ValidateLinks(s: AssociationSchema, instance: Json) returns (r: Result<Json>)
    ensures r == ValidateLinksOf(s, instance)
  {
    var links := Subscript(s.schema, Str("links"));
    if links.Err? { return Err(links.error); }
    var items := Iterate(links.value);
    if items.Err? { return Err(items.error); }
    var rels := RelsOf(items.value);
    if rels.Err? { return Err(rels.error); }
    var ilinks := Subscript(instance, Str("links"));
    if ilinks.Err? { return Err(ilinks.error); }
    var its := Iterate(ilinks.value);
    if its.Err? { return Err(its.error); }
    var xs := its.value;
    var i := 0;
    while i < |xs|
      invariant 0 <= i <= |xs|
      invariant RelsKnown(xs, rels.value) == RelsKnown(xs[i..], rels.value)
    {
      assert xs[i..][0] == xs[i] && xs[i..][1..] == xs[i + 1..];
      var rel := Subscript(xs[i], Str("rel"));
      if rel.Err? { return Err(rel.error); }
      if rel.value !in rels.value {
        return Err(AssertionError("Instance of this association should have links to the schema's rels"));
      }
      i := i + 1;
    }
    return Ok(instance);
  }

  /** With readable rels on both sides, an instance validates exactly when
      every instance link's rel is one of the schema links' rels. */
  lemma {:induction false} RelsKnownIff(items: seq<Json>, ids: seq<Json>, rels: seq<Json>)
    requires |ids| == |items|
    requires forall i :: 0 <= i < |items| ==> Subscript(items[i], Str("rel")) == Ok(ids[i])
    ensures RelsKnown(items, rels).Ok? <==> forall i :: 0 <= i < |ids| ==> ids[i] in rels
    decreases |items|
  {
    if items != [] {
      assert forall i :: 0 <= i < |items[1..]| ==> Subscript(items[1..][i], Str("rel")) == Ok(ids[1..][i]) by {
        assert forall i :: 0 < i < |items| ==> items[1..][i - 1] == items[i] && ids[1..][i - 1] == ids[i];
      }
      RelsKnownIff(items[1..], ids[1..], rels);
      assert RelsKnown(items, rels).Ok? <==> ids[0] in rels && RelsKnown(items[1..], rels).Ok?;
      ForallInTail(ids, rels);
    }
  }

  /** Every item of a non-empty sequence is in `rels` exactly when its head
      and every item of its tail are. */
  lemma ForallInTail(ids: seq<Json>, rels: seq<Json>)
    requires ids != []
    ensures (forall i :: 0 <= i < |ids| ==> ids[i] in rels) <==> ids[0] in rels && forall j :: 0 <= j < |ids[1..]| ==> ids[1..][j] in rels
  {
    if ids[0] in rels && forall j :: 0 <= j < |ids[1..]| ==> ids[1..][j] in rels {
      forall i | 0 < i < |ids| ensures ids[i] in rels {
        assert ids[1..][i - 1] == ids[i];
      }
    }
  }

  lemma ValidateLinksIff(s: AssociationSchema, instance: Json, rels: seq<Json>, items: seq<Json>, ids: seq<Json>)
    requires Subscript(s.schema, Str("links")).Ok? && Iterate(Subscript(s.schema, Str("links")).value).Ok?
    requires RelsOf(Iterate(Subscript(s.schema, Str("links")).value).value) == Ok(rels)
    requires Subscript(instance, Str("links")) == Ok(Arr(items))
    requires |ids| == |items|
    requires forall i :: 0 <= i < |items| ==> Subscript(items[i], Str("rel")) == Ok(ids[i])
    ensures ValidateLinksOf(s, instance).Ok? <==> forall i :: 0 <= i < |ids| ==> ids[i] in rels
  {
    RelsKnownIff(items, ids, rels);
    assert Iterate(Arr(items)) == Ok(items);
    assert ValidateLinksOf(s, instance).Ok? <==> RelsKnown(items, rels).Ok?;
  }

  // ---------------------------------------------------------------------
  // Association instances, without their caches

  /** `_extract_href_keys`' computation; the href must be a string. */
  function HrefKeysOf(href: Json): (r: Result<seq<Option<string>>>)
    ensures r.Ok? ==> href.Str?
    ensures href.Str? ==> r == HrefKeys(href.s)
  {
    if !Hashable(href) then Err(TypeError("unhashable type"))
    else if !href.Str? then Err(TypeError("expected str"))
    else HrefKeys(href.s)
  }

  /** `_extract_id`'s computation: the id read from an instance href and the
      template's first key. */
  function ExtractIdOf(schemaHref: Json, instanceHref: Json): (r: Result<(string, Option<string>)>)
    ensures schemaHref.Str? ==> r == ReadId(schemaHref.s, instanceHref)
    ensures !schemaHref.Str? ==> r.Err?
  {
    if !Hashable(schemaHref) then Err(TypeError("unhashable type"))
    else if !schemaHref.Str? then Err(TypeError("expected str"))
    else ReadId(schemaHref.s, instanceHref)
  }

  /** `[_ for _ in instance_links if _['rel'] == schema_link['rel']]` */
  function SameRel(items: seq<Json>, schemaLink: Json): (r: Result<seq<Json>>)
    decreases |items|
  {
    if items == [] then Ok([])
    else
      var a :- Subscript(items[0], Str("rel"));
      var b :- Subscript(schemaLink, Str("rel"));
      var rest :- SameRel(items[1..], schemaLink);
      Ok(if a == b then [items[0]] + rest else rest)
  }

  /** The instance link paired with a schema link: the first one with the
      same rel, None when there is none. */
  function InstanceLink(schemaLink: Json, instance: Json): (r: Result<Json>)
  {
    var ilinks :- Subscript(instance, Str("links"));
    var items :- Iterate(ilinks);
    var same :- SameRel(items, schemaLink);
    Ok(if same == [] then Null else same[0])
  }

  /** The parts of one link of an edge, as `_extract_link_parts` returns them. */
  datatype LinkParts = LinkParts(idName: Option<string>, id: string, rel: Json, targetSchema: Json,
                                 multiplicity: Json, directionality: Json)

  /** `_extract_link_parts` after the id is read. */
  function FinishParts(schemaLink: Json, idp: (string, Option<string>)): (r: Result<LinkParts>)
    ensures r.Ok? ==> r.value.id == idp.0 && r.value.idName == idp.1
    ensures r.Ok? ==> Subscript(schemaLink, Str("rel")) == Ok(r.value.rel)
  {
    var h :- TargetHints(schemaLink);
    var rel :- Subscript(schemaLink, Str("rel"));
    var ts :- Subscript(schemaLink, Str("targetSchema"));
    var ref :- Subscript(ts, Str("$ref"));
    Ok(LinkParts(idp.1, idp.0, rel, ref, h.multiplicity, h.directionality))
  }

  /** `_extract_link_parts(schema_link, instance)` */
  function LinkPartsOf(schemaLink: Json, instance: Json): (r: Result<LinkParts>)
  {
    var il :- InstanceLink(schemaLink, instance);
    var sh :- Subscript(schemaLink, Str("href"));
    var ih :- Subscript(il, Str("href"));
    var idp :- ExtractIdOf(sh, ih);
    FinishParts(schemaLink, idp)
  }

  /** A Python dict whose keys may be any hashable value. */
  type Pairs = seq<(Json, Json)>

  function PGet(d: Pairs, k: Json): (r: Option<Json>)
    ensures r.Some? ==> (k, r.value) in d
    decreases |d|
  {
    if d == [] then None else if d[0].0 == k then Some(d[0].1) else PGet(d[1..], k)
  }

  /** `d[k] = v`: an existing key keeps its place, a new key goes last. */
  function PPut(d: Pairs, k: Json, v: Json): (r: Pairs)
    ensures PGet(r, k) == Some(v)
    ensures forall k' :: k' != k ==> PGet(r, k') == PGet(d, k')
    decreases |d|
  {
    if d == [] then [(k, v)]
    else if d[0].0 == k then [(k, v)] + d[1..]
    else
      var rest := PPut(d[1..], k, v);
      assert ([d[0]] + rest)[1..] == rest;
      [d[0]] + rest
  }

  /** A field name as a dict key: None stays None. */
  function KeyOf(n: Option<string>): Json
  {
    if n.Some? then Str(n.value) else Null
  }

  /** The dict literal `_extract_link_parts` builds; when the id's name is
      one of the fixed keys, the later entry wins. */
  function PartsDict(lp: LinkParts): (r: Pairs)
    ensures PGet(r, Str("targetSchema")) == Some(lp.targetSchema)
    ensures PGet(r, Str("id_name")) == Some(KeyOf(lp.idName))
    ensures PGet(r, Str("rel")) == Some(lp.rel)
  {
    var d := [(KeyOf(lp.idName), Str(lp.id))];
    var d := PPut(d, Str("rel"), lp.rel);
    var d := PPut(d, Str("targetSchema"), lp.targetSchema);
    var d := PPut(d, Str("multiplicity"), lp.multiplicity);
    var d := PPut(d, Str("directionality"), lp.directionality);
    PPut(d, Str("id_name"), KeyOf(lp.idName))
  }

  /** The names a field may not have without its id being shadowed. */
  predicate FixedKey(n: string)
  {
    n == "rel" || n == "targetSchema" || n == "multiplicity" || n == "directionality" || n == "id_name"
  }

  /** `_[_['id_name']]`: the id, unless the field's name is one of the fixed keys. */
  lemma ShownId(lp: LinkParts)
    requires lp.idName.None? || !FixedKey(lp.idName.value)
    ensures PGet(PartsDict(lp), KeyOf(lp.idName)) == Some(Str(lp.id))
  {
  }

  /** `repr` of such a dict. */
  function ReprDict(d: Pairs): string
  {
    "{" + ReprEntries(d) + "}"
  }

  function ReprEntries(d: Pairs): string
    decreases |d|
  {
    if d == [] then ""
    else
      var item := Repr(d[0].0) + ": " + Repr(d[0].1);
      if |d| == 1 then item else item + ", " + ReprEntries(d[1..])
  }

  /** What the `label` key of the edge parts holds: the title, or the parts of
      a link whose rel is `label` itself. */
  datatype Slot = Label(title: Json) | Overwritten(parts: LinkParts)

  /** `edge_parts()`: the label, then the parts of each link under its rel, in
      the order the rels were first stored. */
  datatype Edge = Edge(labelPart: Slot, links: seq<(Json, LinkParts)>)

  /** Storing under a rel in the `links` part of the edge-parts dict. */
  function LPut(ls: seq<(Json, LinkParts)>, k: Json, lp: LinkParts): (r: seq<(Json, LinkParts)>)
    ensures |r| == |ls| || |r| == |ls| + 1
    ensures (k, lp) in r
    decreases |ls|
  {
    if ls == [] then [(k, lp)]
    else if ls[0].0 == k then [(k, lp)] + ls[1..]
    else
      var rest := LPut(ls[1..], k, lp);
      assert (k, lp) in rest;
      [ls[0]] + rest
  }

  /** `parts[_['rel']] = _` */
  function AddPart(e: Edge, lp: LinkParts): (r: Result<Edge>)
    ensures r.Ok? <==> Hashable(lp.rel)
    ensures r.Ok? && lp.rel == Str("label") ==> r.value == Edge(Overwritten(lp), e.links)
    ensures r.Ok? && lp.rel != Str("label") ==> r.value.labelPart == e.labelPart && (lp.rel, lp) in r.value.links
  {
    if !Hashable(lp.rel) then Err(TypeError("unhashable type"))
    else if lp.rel == Str("label") then Ok(Edge(Overwritten(lp), e.links))
    else Ok(Edge(e.labelPart, LPut(e.links, lp.rel, lp)))
  }

  /** The loop of `edge_parts` from a schema link on. */
  function PartsFrom(items: seq<Json>, instance: Json, acc: Edge): (r: Result<Edge>)
    decreases |items|
  {
    if items == [] then Ok(acc)
    else
      var lp :- LinkPartsOf(items[0], instance);
      var next :- AddPart(acc, lp);
      PartsFrom(items[1..], instance, next)
  }

  /** `edge_parts()` without the caches. */
  function EdgePartsOf(schema: Json, instance: Json): (r: Result<Edge>)
  {
    var title :- Subscript(schema, Str("title"));
    var links :- Subscript(schema, Str("links"));
    var items :- Iterate(links);
    PartsFrom(items, instance, Edge(Label(title), []))
  }

  /** `str()` of what the label key holds. */
  function SlotText(s: Slot): string
  {
    match s
    case Label(t) => Format(t)
    case Overwritten(lp) => ReprDict(PartsDict(lp))
  }

  /** `f"{_['targetSchema']}({_[_['id_name']]}).{rel}"` */
  function Msg(rel: Json, lp: LinkParts): (r: Result<string>)
  {
    var d := PartsDict(lp);
    var name := PGet(d, Str("id_name")).value;
    match PGet(d, name)
    case None => Err(KeyError(Format(name)))
    case Some(v) => Ok(Format(PGet(d, Str("targetSchema")).value) + "(" + Format(v) + ")." + Format(rel))
  }

  /** The messages of the links from one on, after those in `acc`. */
  function MsgsFrom(ls: seq<(Json, LinkParts)>, acc: seq<string>): (r: Result<seq<string>>)
    ensures r.Ok? ==> |r.value| == |acc| + |ls|
    decreases |ls|
  {
    if ls == [] then Ok(acc)
    else
      var m :- Msg(ls[0].0, ls[0].1);
      MsgsFrom(ls[1..], acc + [m])
  }

  /** `repr(instance)`: `Target(id).rel<-Title->Target(id).rel` from the first
      two links; IndexError with fewer. */
  function ReprOf(schema: Json, instance: Json): (r: Result<string>)
    ensures r.Ok? ==> EdgePartsOf(schema, instance).Ok? && |EdgePartsOf(schema, instance).value.links| >= 2
  {
    var ep :- EdgePartsOf(schema, instance);
    var msgs :- MsgsFrom(ep.links, []);
    if |msgs| < 2 then Err(IndexError("list index out of range"))
    else Ok(msgs[0] + "<-" + SlotText(ep.labelPart) + "->" + msgs[1])
  }

  /** One step of the message loop. */
  lemma MsgsStep(ls: seq<(Json, LinkParts)>, i: nat, acc: seq<string>)
    requires i < |ls|
    ensures MsgsFrom(ls[i..], acc)
            == if Msg(ls[i].0, ls[i].1).Err? then Err(Msg(ls[i].0, ls[i].1).error)
               else MsgsFrom(ls[i + 1..], acc + [Msg(ls[i].0, ls[i].1).value])
  {
    assert ls[i..][0] == ls[i] && ls[i..][1..] == ls[i + 1..];
  }

  lemma MsgsDone(ls: seq<(Json, LinkParts)>, acc: seq<string>)
    ensures MsgsFrom(ls[|ls|..], acc) == Ok(acc)
  {
    assert ls[|ls|..] == [];
  }

  /** `repr` once the edge parts are known. */
  lemma ReprFrom(schema: Json, instance: Json, ep: Edge)
    requires EdgePartsOf(schema, instance) == Ok(ep)
    ensures ReprOf(schema, instance)
            == (var msgs :- MsgsFrom(ep.links, []);
                if |msgs| < 2 then Err(IndexError("list index out of range"))
                else Ok(msgs[0] + "<-" + SlotText(ep.labelPart) + "->" + msgs[1]))
  {
  }

  /** The loop of `repr`: one message per link, in order. */
  method Messages(ls: seq<(Json, LinkParts)>) returns (r: Result<seq<string>>)
    ensures r == MsgsFrom(ls, [])
  {
    var msgs: seq<string> := [];
    var i := 0;
    while i < |ls|
      invariant 0 <= i <= |ls|
      invariant MsgsFrom(ls, []) == MsgsFrom(ls[i..], msgs)
    {
      MsgsStep(ls, i, msgs);
      var m := Msg(ls[i].0, ls[i].1);
      if m.Err? {
        return Err(m.error);
      }
      msgs := msgs + [m.value];
      i := i + 1;
    }
    MsgsDone(ls, msgs);
    return Ok(msgs);
  }

  /** `[resolve_pointer(vertex, _) for _ in pointers]` */
  function ResolveAll(vertex: Json, ptrs: seq<Json>): (r: Result<seq<Json>>)
    ensures r.Ok? ==> |r.value| == |ptrs|
    decreases |ptrs|
  {
    if ptrs == [] then Ok([])
    else
      var v :- JsonPointer.Resolve(vertex, ptrs[0]);
      var rest :- ResolveAll(vertex, ptrs[1..]);
      Ok([v] + rest)
  }

  /** The pointers `templatePointers` holds: the items of a list, or the
      values of a dict, which is how the association schemas write them
      (`{id: /id}`). */
  function Pointers(tps: Json): (r: Result<seq<Json>>)
    ensures tps.Arr? ==> r == Ok(tps.items)
    ensures tps.Obj? ==> r == Ok(Values(tps.fields))
  {
    if tps.Obj? then Ok(Values(tps.fields)) else Iterate(tps)
  }

  /** The values the pointers select, filled into the href with the rel. */
  function FillFrom(link: Json, vertex: Json, href: Json, keys: seq<Option<string>>, ptrs: seq<Json>): (r: Result<Json>)
    requires href.Str?
  {
    var values :- ResolveAll(vertex, ptrs);
    var rel :- Subscript(link, Str("rel"));
    var kw :- Kwargs(keys, values);
    var text :- Fill(href.s, kw);
    Ok(Obj([("rel", rel), ("href", Str(text))]))
  }

  /** One link of `_create_instance` once the href's keys are known, with the
      template pointers read as intended. */
  function FillLink(link: Json, vertex: Json, href: Json, keys: seq<Option<string>>): (r: Result<Json>)
    requires href.Str?
  {
    var tps :- Subscript(link, Str("templatePointers"));
    var ptrs :- Pointers(tps);
    FillFrom(link, vertex, href, keys, ptrs)
  }

  /** One link of `_create_instance`, the template pointers read as intended. */
  function CreateLink(link: Json, vertex: Json): (r: Result<Json>)
  {
    var href :- Subscript(link, Str("href"));
    var keys :- HrefKeysOf(href);
    FillLink(link, vertex, href, keys)
  }

  /** One link of `_create_instance` as written: `for _ in
      schema_link['templatePointers']` visits a dict's keys, not its pointers. */
  function CreateLinkAsWritten(link: Json, vertex: Json): (r: Result<Json>)
  {
    var href :- Subscript(link, Str("href"));
    var keys :- HrefKeysOf(href);
    var tps :- Subscript(link, Str("templatePointers"));
    var ptrs :- Iterate(tps);
    FillFrom(link, vertex, href, keys, ptrs)
  }

  /** The loop of `_create_instance` from a (schema link, vertex) pair on. */
  function CreateFrom(links: seq<Json>, vertices: seq<Json>, acc: seq<Json>): (r: Result<seq<Json>>)
    requires |links| == |vertices|
    ensures r.Ok? ==> |r.value| == |acc| + |links|
    decreases |links|
  {
    if links == [] then Ok(acc)
    else
      var l :- CreateLink(links[0], vertices[0]);
      CreateFrom(links[1..], vertices[1..], acc + [l])
  }

  /** `_create_instance(vertex_a, vertex_b)`: the schema links zipped with the
      two vertices. */
  function CreateInstanceOf(schema: Json, a: Json, b: Json): (r: Result<Json>)
  {
    var links :- Subscript(schema, Str("links"));
    var items :- Iterate(links);
    var n := if |items| < 2 then |items| else 2;
    var out :- CreateFrom(items[..n], [a, b][..n], []);
    Ok(Obj([("links", Arr(out))]))
  }

  // ---------------------------------------------------------------------
  // Association instances

  /** An edge document read in the context of its association schema, with
      the two caches `_extract_href_keys` and `_extract_id` fill. */
  class AssociationInstance {
    var instance: Json
    const associationSchema: AssociationSchema
    var regexpCache: map<string, seq<Piece>>
    var hrefKeysCache: map<string, seq<Option<string>>>

    /** Every cached entry is what the template gives when computed afresh. */
    ghost predicate Valid()
      reads this
    {
      (forall h :: h in hrefKeysCache ==> HrefKeys(h) == Ok(hrefKeysCache[h])) &&
      (forall h :: h in regexpCache ==> Pattern(h) == Ok(regexpCache[h]))
    }

    constructor (s: AssociationSchema, instance: Json)
      ensures Valid()
      ensures this.instance == instance && associationSchema == s
      ensures regexpCache == map[] && hrefKeysCache == map[]
    {
      this.instance := instance;
      associationSchema := s;
      regexpCache := map[];
      hrefKeysCache := map[];
    }

    /** `AssociationInstance(association_schema, instance, vertex_a, vertex_b)`:
        the given instance, or one created from both vertices. */
    static method New(s: AssociationSchema, instance: Json, vertexA: Json, vertexB: Json)
      returns (r: Result<AssociationInstance>)
      ensures r.Ok? ==> fresh(r.value) && r.value.Valid() && r.value.associationSchema == s
      ensures instance != Null ==> r.Ok? && r.value.instance == instance
      ensures instance == Null && (vertexA == Null || vertexB == Null) ==>
        r == Err(AssertionError("Must provide instance or vertex_a and vertex_b"))
      ensures instance == Null && vertexA != Null && vertexB != Null ==>
        (r.Ok? <==> CreateInstanceOf(s.schema, vertexA, vertexB).Ok?) &&
        (r.Ok? ==> r.value.instance == CreateInstanceOf(s.schema, vertexA, vertexB).value) &&
        (r.Err? ==> r.error == CreateInstanceOf(s.schema, vertexA, vertexB).error)
    {
      var o := new AssociationInstance(s, instance);
      if instance == Null {
        if vertexA == Null || vertexB == Null {
          return Err(AssertionError("Must provide instance or vertex_a and vertex_b"));
        }
        var c := o.CreateInstance(vertexA, vertexB);
        if c.Err? {
          return Err(c.error);
        }
        o.instance := c.value;
      }
      return Ok(o);
    }

    /** `_extract_href_keys(href)`: the cached keys, or the template's keys
        computed and cached when none or an empty list is cached. */
    method ExtractHrefKeys(href: Json) returns (r: Result<seq<Option<string>>>)
      requires Valid()
      modifies this
      ensures Valid()
      ensures r == HrefKeysOf(href)
      ensures hrefKeysCache == if r.Ok? then old(hrefKeysCache)[href.s := r.value] else old(hrefKeysCache)
      ensures regexpCache == old(regexpCache) && instance == old(instance)
    {
      if !Hashable(href) {
        return Err(TypeError("unhashable type"));
      }
      if href.Str? && href.s in hrefKeysCache && hrefKeysCache[href.s] != [] {
        r := Ok(hrefKeysCache[href.s]);
        assert hrefKeysCache[href.s := r.value] == hrefKeysCache;
        return;
      }
      if !href.Str? {
        return Err(TypeError("expected str"));
      }
      r := HrefKeys(href.s);
      if r.Ok? {
        hrefKeysCache := hrefKeysCache[href.s := r.value];
      }
    }

    /** The loop of `_extract_id` that writes a `(.*)` group for each field. */
    static method SubstituteKeys(href: string, keys: seq<Option<string>>) returns (h: string)
      ensures h == Substitute(href, keys)
    {
      h := href;
      var i := 0;
      while i < |keys|
        invariant 0 <= i <= |keys|
        invariant Substitute(href, keys) == Substitute(h, keys[i..])
      {
        assert keys[i..][0] == keys[i] && keys[i..][1..] == keys[i + 1..];
        h := Replace(h, "{" + KeyText(keys[i]) + "}", "(.*)");
        i := i + 1;
      }
    }

    /** The compiled pattern `_extract_id` takes from its cache, or builds
        and caches. */
    method CachedPattern(schemaHref: Json) returns (r: Result<seq<Piece>>)
      requires Valid() && Hashable(schemaHref)
      modifies this
      ensures Valid()
      ensures schemaHref.Str? ==> r == Pattern(schemaHref.s)
      ensures !schemaHref.Str? ==> r == Err(TypeError("expected str"))
      ensures instance == old(instance)
      ensures old(hrefKeysCache).Keys <= hrefKeysCache.Keys && old(regexpCache).Keys <= regexpCache.Keys
    {
      if schemaHref.Str? && schemaHref.s in regexpCache {
        return Ok(regexpCache[schemaHref.s]);
      }
      var keys :- ExtractHrefKeys(schemaHref);
      var h := SubstituteKeys(schemaHref.s, keys);
      var pat := Compile(h);
      regexpCache := regexpCache[schemaHref.s := pat];
      return Ok(pat);
    }

    /** `_extract_id(schema_href, instance_href)`: the template's pattern,
        cached, matched against the instance's href. */
    method ExtractId(schemaHref: Json, instanceHref: Json) returns (r: Result<(string, Option<string>)>)
      requires Valid()
      modifies this
      ensures Valid()
      ensures r == ExtractIdOf(schemaHref, instanceHref)
      ensures instance == old(instance)
      ensures old(hrefKeysCache).Keys <= hrefKeysCache.Keys && old(regexpCache).Keys <= regexpCache.Keys
    {
      if !Hashable(schemaHref) {
        return Err(TypeError("unhashable type"));
      }
      var pat :- CachedPattern(schemaHref);
      if !instanceHref.Str? {
        return Err(TypeError("expected string or bytes-like object"));
      }
      var m := MatchPieces(pat, instanceHref.s);
      if m.None? {
        return Err(AssertionError("Unable to find id in instance link"));
      }
      if m.value == [] {
        return Err(IndexError("no such group"));
      }
      var keys := ExtractHrefKeys(schemaHref);
      if keys.value == [] {
        return Err(IndexError("list index out of range"));
      }
      return Ok((m.value[0], keys.value[0]));
    }

    /** `_extract_link_parts(schema_link, instance)` */
    method ExtractLinkParts(schemaLink: Json, inst: Json) returns (r: Result<LinkParts>)
      requires Valid()
      modifies this
      ensures Valid()
      ensures r == LinkPartsOf(schemaLink, inst)
      ensures instance == old(instance)
      ensures old(hrefKeysCache).Keys <= hrefKeysCache.Keys && old(regexpCache).Keys <= regexpCache.Keys
    {
      var il :- InstanceLink(schemaLink, inst);
      var sh :- Subscript(schemaLink, Str("href"));
      var ih :- Subscript(il, Str("href"));
      var idp :- ExtractId(sh, ih);
      r := FinishParts(schemaLink, idp);
    }

    /** `edge_parts()`: the title under `label`, then each schema link's parts
        stored under its rel. */
    method EdgeParts() returns (r: Result<Edge>)
      requires Valid()
      modifies this
      ensures Valid()
      ensures r == EdgePartsOf(associationSchema.schema, instance)
      ensures instance == old(instance)
      ensures old(hrefKeysCache).Keys <= hrefKeysCache.Keys && old(regexpCache).Keys <= regexpCache.Keys
    {
      var title :- Subscript(associationSchema.schema, Str("title"));
      var links :- Subscript(associationSchema.schema, Str("links"));
      var items :- Iterate(links);
      var acc := Edge(Label(title), []);
      var i := 0;
      while i < |items|
        invariant 0 <= i <= |items|
        invariant Valid() && instance == old(instance)
        invariant old(hrefKeysCache).Keys <= hrefKeysCache.Keys && old(regexpCache).Keys <= regexpCache.Keys
        invariant PartsFrom(items, instance, Edge(Label(title), [])) == PartsFrom(items[i..], instance, acc)
      {
        assert items[i..][0] == items[i] && items[i..][1..] == items[i + 1..];
        var lp := ExtractLinkParts(items[i], instance);
        if lp.Err? {
          return Err(lp.error);
        }
        var next := AddPart(acc, lp.value);
        if next.Err? {
          return Err(next.error);
        }
        acc := next.value;
        i := i + 1;
      }
      return Ok(acc);
    }

    /** `repr(instance)`: both ends of the edge around its label. */
    method Repr() returns (r: Result<string>)
      requires Valid()
      modifies this
      ensures Valid()
      ensures r == ReprOf(associationSchema.schema, instance)
      ensures instance == old(instance)
      ensures old(hrefKeysCache).Keys <= hrefKeysCache.Keys && old(regexpCache).Keys <= regexpCache.Keys
    {
      ghost var schema, inst := associationSchema.schema, instance;
      var ep :- EdgeParts();
      ReprFrom(schema, inst, ep);
      var msgs :- Messages(ep.links);
      if |msgs| < 2 {
        return Err(IndexError("list index out of range"));
      }
      return Ok(msgs[0] + "<-" + SlotText(ep.labelPart) + "->" + msgs[1]);
    }

    /** One link of `_create_instance`, the href's keys read through the cache. */
    method CreateOne(link: Json, vertex: Json) returns (r: Result<Json>)
      requires Valid()
      modifies this
      ensures Valid()
      ensures r == CreateLink(link, vertex)
      ensures instance == old(instance)
      ensures old(hrefKeysCache).Keys <= hrefKeysCache.Keys && old(regexpCache).Keys <= regexpCache.Keys
    {
      var href :- Subscript(link, Str("href"));
      var keys :- ExtractHrefKeys(href);
      r := FillLink(link, vertex, href, keys);
    }

    /** `_create_instance(vertex_a, vertex_b)`: one link per schema link and
        vertex, its href filled from the values the template pointers select. */
    method CreateInstance(vertexA: Json, vertexB: Json) returns (r: Result<Json>)
      requires Valid()
      modifies this
      ensures Valid()
      ensures r == CreateInstanceOf(associationSchema.schema, vertexA, vertexB)
      ensures instance == old(instance)
      ensures old(hrefKeysCache).Keys <= hrefKeysCache.Keys && old(regexpCache).Keys <= regexpCache.Keys
    {
      var links :- Subscript(associationSchema.schema, Str("links"));
      var items :- Iterate(links);
      var n := if |items| < 2 then |items| else 2;
      var ls := items[..n];
      var vs := [vertexA, vertexB][..n];
      var out: seq<Json> := [];
      var i := 0;
      while i < n
        invariant 0 <= i <= n && |ls| == n && |vs| == n
        invariant Valid() && instance == old(instance)
        invariant old(hrefKeysCache).Keys <= hrefKeysCache.Keys && old(regexpCache).Keys <= regexpCache.Keys
        invariant CreateFrom(ls, vs, []) == CreateFrom(ls[i..], vs[i..], out)
      {
        assert ls[i..][0] == ls[i] && ls[i..][1..] == ls[i + 1..];
        assert vs[i..][0] == vs[i] && vs[i..][1..] == vs[i + 1..];
        var link := CreateOne(ls[i], vs[i]);
        if link.Err? {
          return Err(link.error);
        }
        out := out + [link.value];
        i := i + 1;
      }
      assert ls[n..] == [] && vs[n..] == [];
      return Ok(Obj([("links", Arr(out))]));
    }
  }

  // ---------------------------------------------------------------------
  // Properties of association instances

  /** The keyword arguments built from one key and one value. */
  lemma KwargsOne(k: string, v: Json)
    ensures Kwargs([Some(k)], [v]) == Ok([(k, v)])
  {
    assert [Some(k)][1..] == [] && [v][1..] == [];
    assert ZipKeys([], []) == Some([]) && [(k, v)] + [] == [(k, v)];
    assert ZipKeys([Some(k)], [v]) == Some([(k, v)]);
    assert [] + [(k, v)] == [(k, v)];
    assert Put([], k, v) == [(k, v)];
    assert Update([], [(k, v)]) == Update(Put([], k, v), []);
  }

  /** A schema link whose href is `prefix{key}` and whose only template
      pointer selects the member `name` of the vertex. */
  lemma CreatePointed(prefix: string, k: string, f: Fields, name: string, vf: Fields)
    requires PlainText(prefix) && SimpleName(k)
    requires Has(f, "href") && At(f, "href") == Str(prefix + "{" + k + "}")
    requires Has(f, "templatePointers") && Pointers(At(f, "templatePointers")) == Ok([Str("/" + JsonPointer.Escape(name))])
    requires Has(f, "rel") && Has(vf, name)
    ensures CreateLink(Obj(f), Obj(vf)) ==
      Ok(Obj([("rel", At(f, "rel")), ("href", Str(prefix + Format(At(vf, name))))]))
  {
    var href := Str(prefix + "{" + k + "}");
    var v := At(vf, name);
    ParseSimple(prefix, k);
    assert Subscript(Obj(f), Str("href")) == Ok(href);
    assert HrefKeysOf(href) == Ok([Some(k)]);
    JsonPointer.ResolveMember(vf, name);
    var ptr := Str("/" + JsonPointer.Escape(name));
    assert JsonPointer.Resolve(Obj(vf), ptr) == Ok(v);
    assert [ptr][1..] == [] && [v] + [] == [v];
    assert ResolveAll(Obj(vf), [ptr]) == Ok([v]);
    assert Subscript(Obj(f), Str("templatePointers")) == Ok(At(f, "templatePointers"));
    assert Subscript(Obj(f), Str("rel")) == Ok(At(f, "rel"));
    KwargsOne(k, v);
    FillSimple(prefix, k, [(k, v)]);
    assert Fill(href.s, [(k, v)]) == Ok(prefix + Format(v));
  }

  /** A schema link whose href is `prefix{key}` and whose template pointer
      list selects one member of the vertex: the created link carries the rel
      and the href filled with that member's text. */
  lemma CreateSimple(prefix: string, k: string, f: Fields, name: string, vf: Fields)
    requires PlainText(prefix) && SimpleName(k)
    requires Has(f, "href") && At(f, "href") == Str(prefix + "{" + k + "}")
    requires Has(f, "templatePointers") && At(f, "templatePointers") == Arr([Str("/" + JsonPointer.Escape(name))])
    requires Has(f, "rel") && Has(vf, name)
    ensures CreateLink(Obj(f), Obj(vf)) ==
      Ok(Obj([("rel", At(f, "rel")), ("href", Str(prefix + Format(At(vf, name))))]))
  {
    CreatePointed(prefix, k, f, name, vf);
  }

  /** Creating a link and reading its id back gives the selected member's
      text and the key, when that text holds no line break. */
  lemma CreateThenExtract(prefix: string, k: string, f: Fields, name: string, vf: Fields)
    requires PlainText(prefix) && SimpleName(k)
    requires Has(f, "href") && At(f, "href") == Str(prefix + "{" + k + "}")
    requires Has(f, "templatePointers") && At(f, "templatePointers") == Arr([Str("/" + JsonPointer.Escape(name))])
    requires Has(f, "rel") && Has(vf, name)
    requires forall i :: 0 <= i < |Format(At(vf, name))| ==> Format(At(vf, name))[i] != '\n'
    ensures CreateLink(Obj(f), Obj(vf)) ==
      Ok(Obj([("rel", At(f, "rel")), ("href", Str(prefix + Format(At(vf, name))))]))
    ensures ExtractIdOf(At(f, "href"), Str(prefix + Format(At(vf, name)))) == Ok((Format(At(vf, name)), Some(k)))
  {
    CreateSimple(prefix, k, f, name, vf);
    ExtractIdSimple(prefix, k, Format(At(vf, name)));
  }

  /** As written, template pointers given as a dict are iterated by key, so a
      key that is a bare member name rather than a pointer makes
      `_create_instance` raise. */
  lemma DictPointersFail(prefix: string, k: string, f: Fields, tf: Fields, vertex: Json)
    requires PlainText(prefix) && SimpleName(k)
    requires Has(f, "href") && At(f, "href") == Str(prefix + "{" + k + "}")
    requires Has(f, "templatePointers") && At(f, "templatePointers") == Obj(tf)
    requires tf != [] && tf[0].0 != [] && tf[0].0[0] != '/' && JsonPointer.ValidEscapes(tf[0].0)
    ensures CreateLinkAsWritten(Obj(f), vertex) == Err(JsonPointerException("Location must start with /"))
  {
    ParseSimple(prefix, k);
    JsonPointer.ResolveRelative(vertex, tf[0].0);
    assert Iterate(Obj(tf)) == Ok(KeyValues(tf));
    assert KeyValues(tf)[0] == Str(tf[0].0);
  }

  /** The two readings agree on template pointers given as a list. */
  lemma ListPointersAgree(link: Json, vertex: Json, ptrs: seq<Json>)
    requires Subscript(link, Str("templatePointers")) == Ok(Arr(ptrs))
    ensures CreateLinkAsWritten(link, vertex) == CreateLink(link, vertex)
  {
  }

  /** As intended, a dict `{key: /name}` of template pointers, as the
      association schemas write it, fills the href with the member `name` of
      the vertex. */
  lemma DictPointersCreate(prefix: string, k: string, f: Fields, name: string, vf: Fields)
    requires PlainText(prefix) && SimpleName(k)
    requires Has(f, "href") && At(f, "href") == Str(prefix + "{" + k + "}")
    requires Has(f, "templatePointers") && At(f, "templatePointers") == Obj([(k, Str("/" + JsonPointer.Escape(name)))])
    requires Has(f, "rel") && Has(vf, name)
    ensures CreateLink(Obj(f), Obj(vf)) ==
      Ok(Obj([("rel", At(f, "rel")), ("href", Str(prefix + Format(At(vf, name))))]))
  {
    var ptr := Str("/" + JsonPointer.Escape(name));
    assert Values([(k, ptr)]) == [ptr];
    CreatePointed(prefix, k, f, name, vf);
  }

  /** The only instance link with the schema link's rel is the one paired
      with it. */
  lemma InstanceLinkSingle(sf: Fields, ilf: Fields)
    requires Has(sf, "rel") && Has(ilf, "rel") && At(ilf, "rel") == At(sf, "rel")
    ensures InstanceLink(Obj(sf), Obj([("links", Arr([Obj(ilf)]))])) == Ok(Obj(ilf))
  {
    var inst := Obj([("links", Arr([Obj(ilf)]))]);
    assert Has([("links", Arr([Obj(ilf)]))], "links");
    assert Subscript(inst, Str("links")) == Ok(Arr([Obj(ilf)]));
    assert [Obj(ilf)][1..] == [];
    assert Subscript(Obj(ilf), Str("rel")) == Ok(At(ilf, "rel"));
    assert Subscript(Obj(sf), Str("rel")) == Ok(At(sf, "rel"));
    assert SameRel([], Obj(sf)) == Ok([]) && [Obj(ilf)] + [] == [Obj(ilf)];
    assert SameRel([Obj(ilf)], Obj(sf)) == Ok([Obj(ilf)]);
  }

  /** Reading the id back from `prefix` followed by an id holding no line break. */
  lemma ExtractIdSimple(prefix: string, k: string, id: string)
    requires PlainText(prefix) && SimpleName(k)
    requires forall i :: 0 <= i < |id| ==> id[i] != '\n'
    ensures ExtractIdOf(Str(prefix + "{" + k + "}"), Str(prefix + id)) == Ok((id, Some(k)))
  {
    var h := prefix + id;
    PrefixOf(prefix, id);
    ReadIdSimple(prefix, k, h);
    assert h[|prefix|..] == id;
    LineRunAll(id);
    assert id[..|id|] == id;
  }

  /** One schema link `prefix{key}` paired with the instance link of the same
      rel whose href is `prefix` followed by the id: the parts are the key's
      name, the id, the rel, the target's `$ref` and the link's hints. */
  lemma LinkPartsSimple(prefix: string, k: string, sf: Fields, ilf: Fields, id: string)
    requires PlainText(prefix) && SimpleName(k)
    requires Has(sf, "rel") && Has(sf, "href") && At(sf, "href") == Str(prefix + "{" + k + "}")
    requires Has(sf, "targetSchema") && At(sf, "targetSchema").Obj? && Has(At(sf, "targetSchema").fields, "$ref")
    requires TargetHints(Obj(sf)).Ok?
    requires Has(ilf, "rel") && At(ilf, "rel") == At(sf, "rel")
    requires Has(ilf, "href") && At(ilf, "href") == Str(prefix + id)
    requires forall i :: 0 <= i < |id| ==> id[i] != '\n'
    ensures LinkPartsOf(Obj(sf), Obj([("links", Arr([Obj(ilf)]))])) ==
      Ok(LinkParts(Some(k), id, At(sf, "rel"), At(At(sf, "targetSchema").fields, "$ref"),
                   TargetHints(Obj(sf)).value.multiplicity, TargetHints(Obj(sf)).value.directionality))
  {
    InstanceLinkSingle(sf, ilf);
    ExtractIdSimple(prefix, k, id);
    var idp := (id, Some(k));
    var ts := At(sf, "targetSchema");
    assert Subscript(Obj(sf), Str("targetSchema")) == Ok(ts);
    assert Subscript(ts, Str("$ref")) == Ok(At(ts.fields, "$ref"));
    assert Subscript(Obj(sf), Str("rel")) == Ok(At(sf, "rel"));
    assert FinishParts(Obj(sf), idp).Ok?;
  }

  /** A link's message names its target, its id and its rel when the id's
      field is not called after one of the fixed keys. */
  lemma MsgShown(rel: Json, lp: LinkParts)
    requires lp.idName.None? || !FixedKey(lp.idName.value)
    ensures Msg(rel, lp) == Ok(Format(lp.targetSchema) + "(" + lp.id + ")." + Format(rel))
  {
    ShownId(lp);
  }

  /** A field called `rel` is shadowed by the rel itself, which the message
      then shows in place of the id. */
  lemma MsgShadowed(rel: Json, lp: LinkParts)
    requires lp.idName == Some("rel")
    ensures Msg(rel, lp) == Ok(Format(lp.targetSchema) + "(" + Format(lp.rel) + ")." + Format(rel))
  {
  }
}
