// `_simplify_references`: the reference properties of a schema become its
// `links`, one per in-scope target type, with `subject` examined first.
// gen3.py and simplified.py carry the same function; only its log lines
// differ, and logging is not modelled.

module SchemaLinks {

  import opened Text
  import opened Json
  import Inflection

  /** One entry of a schema's `links`, together with the property (`prop`)
      and target (`refType`) that produced it. */
  datatype Link = Link(backref: Json, edgeLabel: string, name: string, targetType: string,
                       prop: string, refType: string)

  /** The dict appended to `links`. */
  function LinkJson(l: Link): (r: Json)
    ensures r.Obj?
  {
    Obj([("backref", l.backref)] + ([("label", Str(l.edgeLabel))] + ([("multiplicity", Str("many_to_many"))] +
        ([("name", Str(l.name))] + ([("required", Bool(false))] + [("target_type", Str(l.targetType))])))))
  }

  /** Every link is `many_to_many`, not required, and carries its target
      type, name, label and backref. */
  lemma LinkJsonFields(l: Link)
    ensures Get(LinkJson(l).fields, "multiplicity") == Some(Str("many_to_many"))
    ensures Get(LinkJson(l).fields, "required") == Some(Bool(false))
    ensures Get(LinkJson(l).fields, "target_type") == Some(Str(l.targetType))
    ensures Get(LinkJson(l).fields, "name") == Some(Str(l.name))
    ensures Get(LinkJson(l).fields, "label") == Some(Str(l.edgeLabel))
    ensures Get(LinkJson(l).fields, "backref") == Some(l.backref)
  {
    var f5 := [("target_type", Str(l.targetType))];
    var f4 := [("required", Bool(false))] + f5;
    var f3 := [("name", Str(l.name))] + f4;
    var f2 := [("multiplicity", Str("many_to_many"))] + f3;
    var f1 := [("label", Str(l.edgeLabel))] + f2;
    forall k | k in {"multiplicity", "required", "target_type", "name", "label", "backref"}
      ensures Get(LinkJson(l).fields, k) == Get([("backref", l.backref)] + f1, k)
    {
    }
    GetCons("backref", l.backref, f1, "target_type");
    GetCons("label", Str(l.edgeLabel), f2, "target_type");
    GetCons("multiplicity", Str("many_to_many"), f3, "target_type");
    GetCons("name", Str(l.name), f4, "target_type");
    GetCons("required", Bool(false), f5, "target_type");
    GetCons("backref", l.backref, f1, "required");
    GetCons("label", Str(l.edgeLabel), f2, "required");
    GetCons("multiplicity", Str("many_to_many"), f3, "required");
    GetCons("name", Str(l.name), f4, "required");
    GetCons("backref", l.backref, f1, "name");
    GetCons("label", Str(l.edgeLabel), f2, "name");
    GetCons("multiplicity", Str("many_to_many"), f3, "name");
    GetCons("backref", l.backref, f1, "multiplicity");
    GetCons("label", Str(l.edgeLabel), f2, "multiplicity");
    GetCons("backref", l.backref, f1, "label");
    GetCons("backref", l.backref, f1, "backref");
  }

  function LinksJson(links: seq<Link>): (r: seq<Json>)
    ensures |r| == |links|
    ensures forall i :: 0 <= i < |links| ==> r[i] == LinkJson(links[i])
  {
    seq(|links|, i requires 0 <= i < |links| => LinkJson(links[i]))
  }

  /** The target types already linked (the keys of `targets`). */
  function TargetTypes(links: seq<Link>): (r: set<string>)
    ensures forall t :: t in r <==> exists i :: 0 <= i < |links| && links[i].targetType == t
  {
    set i | 0 <= i < |links| :: links[i].targetType
  }

  predicate UniqueTargets(links: seq<Link>)
  {
    forall i, j :: 0 <= i < j < |links| ==> links[i].targetType != links[j].targetType
  }

  /** What one schema's links are filtered by: its title, the configured
      `dependency_order`, and `limit_links[title]` (or `null`). */
  datatype Scope = Scope(title: Json, dependencyOrder: seq<string>, permitted: Json)

  /** `limit_links[title]` when `title in limit_links`, else `None`. */
  function PermittedFor(title: Json, limitLinks: Fields): (r: Result<Json>)
    ensures title.Str? && Has(limitLinks, title.s) ==> r == Ok(At(limitLinks, title.s))
    ensures title.Str? && !Has(limitLinks, title.s) ==> r == Ok(Null)
    ensures r.Err? <==> !Hashable(title)
  {
    if !Hashable(title) then Err(TypeError("unhashable type"))
    else if title.Str? && Has(limitLinks, title.s) then Ok(At(limitLinks, title.s))
    else Ok(Null)
  }

  /** The first position of `x` in `xs` (`xs.index(x)`). */
  function FirstIndex(xs: seq<string>, x: string): (i: nat)
    requires x in xs
    ensures i < |xs| && xs[i] == x && x !in xs[..i]
  {
    if xs[0] == x then 0
    else
      var j := FirstIndex(xs[1..], x);
      assert xs[..j + 1] == [xs[0]] + xs[1..][..j];
      j + 1
  }

  /** `names.insert(0, names.pop(names.index('subject')))` when `'subject' in names`. */
  function SubjectFirst(names: seq<string>): (r: seq<string>)
    ensures multiset(r) == multiset(names)
    ensures forall n :: n in r <==> n in names
    ensures "subject" in names ==> r != [] && r[0] == "subject"
    ensures "subject" !in names ==> r == names
  {
    if "subject" in names then
      var i := FirstIndex(names, "subject");
      assert names == names[..i] + [names[i]] + names[i + 1..];
      ["subject"] + names[..i] + names[i + 1..]
    else names
  }

  predicate IsReferenceRef(j: Json)
  {
    j == Str("CodeableReference.yaml") || j == Str("Reference.yaml")
  }

  /** Whether a property is collected into `links_to_add`: a dict whose
      `type` is empty or `array`, with a `$ref` or `items.$ref` naming
      `Reference.yaml` or `CodeableReference.yaml`.  `items`, when present,
      must be a dict (its `.get` is always called). */
  function IsLinkCandidate(p: Json): (r: Result<bool>)
    ensures !p.Obj? ==> r == Ok(false)
    ensures r == Ok(true) ==> p.Obj?
    ensures p.Obj? && !Has(p.fields, "items") && !(Truthy(GetOr(p.fields, "type", Null)) && GetOr(p.fields, "type", Null) != Str("array")) ==>
              r == Ok(IsReferenceRef(GetOr(p.fields, "$ref", Null)))
    ensures p.Obj? && Truthy(GetOr(p.fields, "type", Null)) && GetOr(p.fields, "type", Null) != Str("array") ==> r == Ok(false)
  {
    if !p.Obj? then Ok(false)
    else
      var t := GetOr(p.fields, "type", Null);
      if Truthy(t) && t != Str("array") then Ok(false)
      else
        var ref := GetOr(p.fields, "$ref", Null);
        var itemsRef :- ObjGet(GetOr(p.fields, "items", Obj([])), "$ref");
        Ok(IsReferenceRef(ref) || IsReferenceRef(if itemsRef.Some? then itemsRef.value else Null))
  }

  /** `links_to_add`: the candidates among `names`, in that order. */
  function Candidates(props: Fields, names: seq<string>): (r: Result<seq<(string, Fields)>>)
  {
    if names == [] then Ok([])
    else
      var p :- Index(props, names[0]);
      match IsLinkCandidate(p)
      case Err(e) => Err(e)
      case Ok(isCandidate) =>
        match Candidates(props, names[1..])
        case Err(e) => Err(e)
        case Ok(rest) => Ok(if isCandidate then [(names[0], p.fields)] + rest else rest)
  }

  /** `links_to_add` holds exactly the candidates among `names`, in order,
      and is computed unless a candidate test raises. */
  lemma {:induction false} CandidatesSpec(props: Fields, names: seq<string>)
    requires forall n :: n in names ==> Has(props, n)
    ensures Candidates(props, names).Ok? <==> forall n :: n in names ==> IsLinkCandidate(At(props, n)).Ok?
    ensures Candidates(props, names).Ok? ==> forall c :: c in Candidates(props, names).value ==>
              c.0 in names && At(props, c.0) == Obj(c.1) && IsLinkCandidate(Obj(c.1)) == Ok(true)
    ensures Candidates(props, names).Ok? ==> forall n :: n in names && IsLinkCandidate(At(props, n)) == Ok(true) ==>
              (n, At(props, n).fields) in Candidates(props, names).value
    ensures Candidates(props, names).Ok? && names != [] && IsLinkCandidate(At(props, names[0])) == Ok(true) ==>
              Candidates(props, names).value != [] && Candidates(props, names).value[0] == (names[0], At(props, names[0]).fields)
  {
    if names != [] {
      CandidatesSpec(props, names[1..]);
      assert forall n :: n in names ==> n == names[0] || n in names[1..];
    }
  }

  /** The label of the link from `name` to `rt`: `{title}_{prop}_{Type}_{backref}`. */
  function Label(scope: Scope, name: string, rt: string, backref: Json): string
  {
    Format(scope.title) + "_" + name + "_" + rt + "_" + Format(backref)
  }

  /** A target is in scope when it is in `dependency_order`, and, if the
      schema's `limit_links` entry is non-empty, also in that entry. */
  function InScope(scope: Scope, rt: Json): (r: Result<bool>)
    ensures !(rt.Str? && rt.s in scope.dependencyOrder) ==> r == Ok(false)
    ensures rt.Str? && rt.s in scope.dependencyOrder && !Truthy(scope.permitted) ==> r == Ok(true)
    ensures rt.Str? && rt.s in scope.dependencyOrder && scope.permitted.Arr? && Truthy(scope.permitted) ==>
              r == Ok(rt in scope.permitted.items)
  {
    if !(rt.Str? && rt.s in scope.dependencyOrder) then Ok(false)
    else if !Truthy(scope.permitted) then Ok(true)
    else InJ(rt.s, scope.permitted)
  }

  /** One iteration of the inner loop: the target `rt` of property `name`. */
  function AddTarget(scope: Scope, links: seq<Link>, name: string, p: Fields, multiple: bool, rt: Json): (r: Result<seq<Link>>)
    ensures r.Ok? ==> |links| <= |r.value| && r.value[..|links|] == links
  {
    if !Has(p, "backref") then Err(AssertionError(Format(scope.title) + "_" + name))
    else
      var inScope :- InScope(scope, rt);
      if !inScope then Ok(links)
      else
        var tt := Inflection.Underscore(rt.s);
        if tt in TargetTypes(links) then Ok(links)
        else
          var backref := At(p, "backref");
          Ok(links + [Link(backref, Label(scope, name, rt.s, backref),
                           if multiple then name + "_" + rt.s else name, tt, name, rt.s)])
  }

  /** The inner loop over `rts`, continuing from `links`. */
  function AddTargets(scope: Scope, links: seq<Link>, name: string, p: Fields, multiple: bool, rts: seq<Json>): (r: Result<seq<Link>>)
    ensures r.Ok? ==> |links| <= |r.value| && r.value[..|links|] == links
    decreases |rts|
  {
    if rts == [] then Ok(links)
    else
      var links1 :- AddTarget(scope, links, name, p, multiple, rts[0]);
      AddTargets(scope, links1, name, p, multiple, rts[1..])
  }

  /** One iteration of the outer loop: a candidate without
      `enum_reference_types` is skipped; otherwise each of its targets. */
  function AddCandidate(scope: Scope, links: seq<Link>, c: (string, Fields)): (r: Result<seq<Link>>)
    ensures r.Ok? ==> |links| <= |r.value| && r.value[..|links|] == links
  {
    if !Has(c.1, "enum_reference_types") then Ok(links)
    else
      var rts :- Iterate(At(c.1, "enum_reference_types"));
      AddTargets(scope, links, c.0, c.1, |rts| > 1, rts)
  }

  /** The outer loop over `cands`, continuing from `links`. */
  function LinksOf(scope: Scope, links: seq<Link>, cands: seq<(string, Fields)>): (r: Result<seq<Link>>)
    ensures r.Ok? ==> |links| <= |r.value| && r.value[..|links|] == links
    decreases |cands|
  {
    if cands == [] then Ok(links)
    else
      var links1 :- AddCandidate(scope, links, cands[0]);
      LinksOf(scope, links1, cands[1..])
  }

  /** The scope and `links_to_add` of one schema with properties: its
      reference properties in key order, `subject` first. */
  function ReferenceCandidates(schema: Fields, dependencyOrder: seq<string>, limitLinks: Fields): (r: Result<(Scope, seq<(string, Fields)>)>)
    ensures r.Ok? ==> Has(schema, "title") && Get(schema, "title") == Some(r.value.0.title)
    ensures r.Ok? ==> r.value.0.dependencyOrder == dependencyOrder
    ensures r.Ok? ==> ObjAt(schema, "properties").Ok?
    ensures r.Ok? ==> forall c :: c in r.value.1 ==>
              Get(ObjAt(schema, "properties").value, c.0) == Some(Obj(c.1)) && IsLinkCandidate(Obj(c.1)) == Ok(true)
    ensures r.Ok? ==> forall n ::
              (Has(ObjAt(schema, "properties").value, n) && IsLinkCandidate(At(ObjAt(schema, "properties").value, n)) == Ok(true)) ==>
                (n, At(ObjAt(schema, "properties").value, n).fields) in r.value.1
    ensures r.Ok? && Has(ObjAt(schema, "properties").value, "subject") &&
            IsLinkCandidate(At(ObjAt(schema, "properties").value, "subject")) == Ok(true) ==>
              r.value.1 != [] && r.value.1[0].0 == "subject"
  {
    var title :- Index(schema, "title");
    var permitted :- PermittedFor(title, limitLinks);
    var props :- ObjAt(schema, "properties");
    var names := SubjectFirst(Keys(props));
    CandidatesSpec(props, names);
    var cands :- Candidates(props, names);
    Ok((Scope(title, dependencyOrder, permitted), cands))
  }

  /** The `links` list `_simplify_references` builds for one schema. */
  function SchemaLinks(schema: Fields, dependencyOrder: seq<string>, limitLinks: Fields): (r: Result<seq<Link>>)
  {
    var (scope, cands) :- ReferenceCandidates(schema, dependencyOrder, limitLinks);
    LinksOf(scope, [], cands)
  }

  /** `_simplify_references` on one schema: a schema without `properties`
      is left alone; otherwise `links` is set and nothing else changes. */
  function SimplifyReferences(schema: Fields, dependencyOrder: seq<string>, limitLinks: Fields): (r: Result<Fields>)
    ensures !Has(schema, "properties") ==> r == Ok(schema)
    ensures r.Ok? ==> forall k :: k != "links" ==> Get(r.value, k) == Get(schema, k)
    ensures Has(schema, "properties") ==>
              (r.Ok? <==> SchemaLinks(schema, dependencyOrder, limitLinks).Ok?)
    ensures r.Ok? && Has(schema, "properties") ==>
              Get(r.value, "links") == Some(Arr(LinksJson(SchemaLinks(schema, dependencyOrder, limitLinks).value)))
    ensures Has(schema, "properties") && !Has(schema, "title") ==> r.Err?
  {
    if !Has(schema, "properties") then Ok(schema)
    else
      var links :- SchemaLinks(schema, dependencyOrder, limitLinks);
      Ok(Put(schema, "links", Arr(LinksJson(links))))
  }

  /** The selection loop: each name in turn is added to `links_to_add` when
      its property is a reference candidate. */
  method SelectCandidates(props: Fields, names: seq<string>) returns (r: Result<seq<(string, Fields)>>)
    ensures r == Candidates(props, names)
  {
    var acc: seq<(string, Fields)> := [];
    var i := 0;
    PrependNone(Candidates(props, names));
    assert names[i..] == names;
    while i < |names|
      invariant 0 <= i <= |names|
      invariant Candidates(props, names) == Prepend(acc, Candidates(props, names[i..]))
    {
      SelectStep(props, names, i, acc);
      var pR := Index(props, names[i]);
      if pR.Err? {
        return Err(pR.error);
      }
      var p := pR.value;
      var isCandidate := IsLinkCandidate(p);
      if isCandidate.Err? {
        return Err(isCandidate.error);
      }
      var head: seq<(string, Fields)> := if isCandidate.value then [(names[i], p.fields)] else [];
      acc := acc + head;
      i := i + 1;
    }
    assert names[i..] == [];
    assert acc + [] == acc;
    r := Ok(acc);
  }

  /** The candidates found so far, followed by those of the remaining names. */
  function Prepend(acc: seq<(string, Fields)>, rest: Result<seq<(string, Fields)>>): (r: Result<seq<(string, Fields)>>)
    ensures r.Ok? <==> rest.Ok?
  {
    match rest
    case Err(e) => Err(e)
    case Ok(xs) => Ok(acc + xs)
  }

  lemma PrependNone(rest: Result<seq<(string, Fields)>>)
    ensures Prepend([], rest) == rest
  {
    if rest.Ok? {
      assert [] + rest.value == rest.value;
    }
  }

  /** Moving one name's contribution from the rest to the front. */
  lemma PrependStep(acc: seq<(string, Fields)>, head: seq<(string, Fields)>, rest: Result<seq<(string, Fields)>>)
    ensures Prepend(acc, match rest case Err(e) => Err(e) case Ok(xs) => Ok(head + xs)) == Prepend(acc + head, rest)
  {
    if rest.Ok? {
      assert acc + (head + rest.value) == (acc + head) + rest.value;
    }
  }

  /** One turn of the selection loop: an error at name `i` is the error of
      the whole selection, and otherwise name `i`'s contribution moves to
      the front. */
  lemma SelectStep(props: Fields, names: seq<string>, i: nat, acc: seq<(string, Fields)>)
    requires i < |names|
    requires Candidates(props, names) == Prepend(acc, Candidates(props, names[i..]))
    ensures Index(props, names[i]).Err? ==> Candidates(props, names) == Err(Index(props, names[i]).error)
    ensures Index(props, names[i]).Ok? && IsLinkCandidate(Index(props, names[i]).value).Err? ==>
              Candidates(props, names) == Err(IsLinkCandidate(Index(props, names[i]).value).error)
    ensures Index(props, names[i]).Ok? && IsLinkCandidate(Index(props, names[i]).value).Ok? ==>
              var p := Index(props, names[i]).value;
              var head := if IsLinkCandidate(p).value then [(names[i], p.fields)] else [];
              Candidates(props, names) == Prepend(acc + head, Candidates(props, names[i + 1..]))
  {
    CandidatesAt(props, names, i);
    if Index(props, names[i]).Ok? && IsLinkCandidate(Index(props, names[i]).value).Ok? {
      var p := Index(props, names[i]).value;
      var head := if IsLinkCandidate(p).value then [(names[i], p.fields)] else [];
      PrependStep(acc, head, Candidates(props, names[i + 1..]));
    }
  }

  /** `Candidates` of the names from `i` on, split at name `i`. */
  lemma CandidatesAt(props: Fields, names: seq<string>, i: nat)
    requires i < |names|
    ensures Candidates(props, names[i..]) ==
              match Index(props, names[i])
              case Err(e) => Err(e)
              case Ok(p) =>
                match IsLinkCandidate(p)
                case Err(e) => Err(e)
                case Ok(isCandidate) =>
                  match Candidates(props, names[i + 1..])
                  case Err(e) => Err(e)
                  case Ok(rest) => Ok((if isCandidate then [(names[i], p.fields)] else []) + rest)
  {
    assert names[i..][1..] == names[i + 1..] && names[i..][0] == names[i];
    match Index(props, names[i])
    case Err(e) =>
    case Ok(p) =>
      match IsLinkCandidate(p)
      case Err(e) =>
      case Ok(isCandidate) =>
        match Candidates(props, names[i + 1..])
        case Err(e) =>
        case Ok(rest) =>
          if !isCandidate {
            assert [] + rest == rest;
          }
  }

  /** The outer loop of `_simplify_references`, with `targets` recording
      the target types linked so far. */
  method BuildLinks(scope: Scope, cands: seq<(string, Fields)>) returns (r: Result<seq<Link>>)
    ensures r == LinksOf(scope, [], cands)
  {
    var links: seq<Link> := [];
    var targets: set<string> := {};
    var i := 0;
    while i < |cands|
      invariant 0 <= i <= |cands|
      invariant LinksOf(scope, [], cands) == LinksOf(scope, links, cands[i..])
      invariant targets == TargetTypes(links)
    {
      assert cands[i..][1..] == cands[i + 1..];
      var next;
      next, targets := CandidateLinks(scope, links, targets, cands[i]);
      if next.Err? {
        return Err(next.error);
      }
      links := next.value;
      i := i + 1;
    }
    r := Ok(links);
  }

  /** The inner loop over one candidate's `enum_reference_types`. */
  method CandidateLinks(scope: Scope, links: seq<Link>, targets: set<string>, c: (string, Fields))
    returns (r: Result<seq<Link>>, targets': set<string>)
    requires targets == TargetTypes(links)
    ensures r == AddCandidate(scope, links, c)
    ensures r.Ok? ==> targets' == TargetTypes(r.value)
  {
    var (name, p) := c;
    if !Has(p, "enum_reference_types") {
      return Ok(links), targets;
    }
    var rtsR := Iterate(At(p, "enum_reference_types"));
    if rtsR.Err? {
      return Err(rtsR.error), targets;
    }
    var rts := rtsR.value;
    var multiple := |rts| > 1;
    var out := links;
    targets' := targets;
    var j := 0;
    while j < |rts|
      invariant 0 <= j <= |rts|
      invariant AddCandidate(scope, links, c) == AddTargets(scope, out, name, p, multiple, rts[j..])
      invariant targets' == TargetTypes(out)
    {
      TargetStep(scope, links, c, out, multiple, rts, j);
      var rt := rts[j];
      if !Has(p, "backref") {
        return Err(AssertionError(Format(scope.title) + "_" + name)), targets';
      }
      var inScope := InScope(scope, rt);
      if inScope.Err? {
        return Err(inScope.error), targets';
      }
      if inScope.value {
        var targetType := Inflection.Underscore(rt.s);
        var backref := At(p, "backref");
        var edgeLabel := Label(scope, name, rt.s, backref);
        if targetType !in targets' {
          var linkName := name;
          if multiple {
            linkName := name + "_" + rt.s;
          }
          var l := Link(backref, edgeLabel, linkName, targetType, name, rt.s);
          TargetTypesSnoc(out, l);
          out := out + [l];
          targets' := targets' + {targetType};
        }
      }
      j := j + 1;
    }
    r := Ok(out);
  }

  /** One turn of the inner loop: a failing target ends the candidate with
      its error, otherwise the rest of the targets continue from its links. */
  lemma TargetStep(scope: Scope, links: seq<Link>, c: (string, Fields), out: seq<Link>, multiple: bool, rts: seq<Json>, j: nat)
    requires j < |rts|
    requires AddCandidate(scope, links, c) == AddTargets(scope, out, c.0, c.1, multiple, rts[j..])
    ensures AddTarget(scope, out, c.0, c.1, multiple, rts[j]).Err? ==>
              AddCandidate(scope, links, c) == Err(AddTarget(scope, out, c.0, c.1, multiple, rts[j]).error)
    ensures AddTarget(scope, out, c.0, c.1, multiple, rts[j]).Ok? ==>
              AddCandidate(scope, links, c) ==
                AddTargets(scope, AddTarget(scope, out, c.0, c.1, multiple, rts[j]).value, c.0, c.1, multiple, rts[j + 1..])
  {
    assert rts[j..][0] == rts[j];
    assert rts[j..][1..] == rts[j + 1..];
  }

  /** A link appended adds its target type. */
  lemma TargetTypesSnoc(links: seq<Link>, l: Link)
    ensures TargetTypes(links + [l]) == TargetTypes(links) + {l.targetType}
  {
    forall t ensures t in TargetTypes(links + [l]) <==> t in TargetTypes(links) || t == l.targetType {
      if t in TargetTypes(links) {
        var i :| 0 <= i < |links| && links[i].targetType == t;
        assert (links + [l])[i] == links[i];
      }
      assert (links + [l])[|links|] == l;
    }
  }

  /** `_simplify_references` on one schema, as the loops compute it. */
  method SimplifySchemaReferences(schema: Fields, dependencyOrder: seq<string>, limitLinks: Fields) returns (r: Result<Fields>)
    ensures r == SimplifyReferences(schema, dependencyOrder, limitLinks)
  {
    if !Has(schema, "properties") {
      return Ok(schema);
    }
    var title :- Index(schema, "title");
    var permitted :- PermittedFor(title, limitLinks);
    var props :- ObjAt(schema, "properties");
    var names := SubjectFirst(Keys(props));
    var cands :- SelectCandidates(props, names);
    var links :- BuildLinks(Scope(title, dependencyOrder, permitted), cands);
    r := Ok(Put(schema, "links", Arr(LinksJson(links))));
  }

  /** The shape of a link from property `name` (with dict `p`) to target
      `refType`: in scope, named after the property, or `{prop}_{Type}` when
      the property has several targets, labelled
      `{title}_{prop}_{Type}_{backref}`. */
  predicate LinkShape(scope: Scope, name: string, p: Fields, multiple: bool, l: Link)
    requires Has(p, "backref")
  {
    l.prop == name &&
    InScope(scope, Str(l.refType)) == Ok(true) &&
    l.targetType == Inflection.Underscore(l.refType) &&
    l.backref == At(p, "backref") &&
    l.edgeLabel == Label(scope, name, l.refType, l.backref) &&
    l.name == (if multiple then name + "_" + l.refType else name)
  }

  /** Link `l` comes from candidate `c`: `c` has `enum_reference_types`
      listing `l.refType` and a `backref`. */
  ghost predicate LinkFrom(scope: Scope, c: (string, Fields), l: Link)
  {
    Has(c.1, "enum_reference_types") && Has(c.1, "backref") &&
    Iterate(At(c.1, "enum_reference_types")).Ok? &&
    Str(l.refType) in Iterate(At(c.1, "enum_reference_types")).value &&
    LinkShape(scope, c.0, c.1, |Iterate(At(c.1, "enum_reference_types")).value| > 1, l)
  }

  /** Target `rt` of candidate `c` is one a link may be made for. */
  ghost predicate Eligible(scope: Scope, c: (string, Fields), rt: Json)
  {
    Has(c.1, "enum_reference_types") && Has(c.1, "backref") &&
    Iterate(At(c.1, "enum_reference_types")).Ok? &&
    rt in Iterate(At(c.1, "enum_reference_types")).value &&
    InScope(scope, rt) == Ok(true)
  }

  lemma AddTargetUnique(scope: Scope, links: seq<Link>, name: string, p: Fields, multiple: bool, rt: Json)
    requires UniqueTargets(links) && AddTarget(scope, links, name, p, multiple, rt).Ok?
    ensures UniqueTargets(AddTarget(scope, links, name, p, multiple, rt).value)
  {
    var r := AddTarget(scope, links, name, p, multiple, rt).value;
    if |r| > |links| {
      assert forall i :: 0 <= i < |links| ==> r[i] == links[i];
      assert r[|links|].targetType !in TargetTypes(links);
    }
  }

  lemma {:induction false} AddTargetsUnique(scope: Scope, links: seq<Link>, name: string, p: Fields, multiple: bool, rts: seq<Json>)
    requires UniqueTargets(links) && AddTargets(scope, links, name, p, multiple, rts).Ok?
    ensures UniqueTargets(AddTargets(scope, links, name, p, multiple, rts).value)
    decreases |rts|
  {
    if rts != [] {
      AddTargetUnique(scope, links, name, p, multiple, rts[0]);
      AddTargetsUnique(scope, AddTarget(scope, links, name, p, multiple, rts[0]).value, name, p, multiple, rts[1..]);
    }
  }

  lemma {:induction false} LinksOfUnique(scope: Scope, links: seq<Link>, cands: seq<(string, Fields)>)
    requires UniqueTargets(links) && LinksOf(scope, links, cands).Ok?
    ensures UniqueTargets(LinksOf(scope, links, cands).value)
    decreases |cands|
  {
    if cands != [] {
      var c := cands[0];
      if Has(c.1, "enum_reference_types") {
        var rts := Iterate(At(c.1, "enum_reference_types")).value;
        AddTargetsUnique(scope, links, c.0, c.1, |rts| > 1, rts);
      }
      LinksOfUnique(scope, AddCandidate(scope, links, c).value, cands[1..]);
    }
  }

  /** Every link added by the inner loop has the shape of a link from
      `name` to one of its targets. */
  lemma {:induction false} AddTargetsFrom(scope: Scope, links: seq<Link>, name: string, p: Fields, multiple: bool,
                                          rts: seq<Json>, all: seq<Json>)
    requires AddTargets(scope, links, name, p, multiple, rts).Ok?
    requires forall x :: x in rts ==> x in all
    ensures var r := AddTargets(scope, links, name, p, multiple, rts).value;
            forall k :: |links| <= k < |r| ==>
              Has(p, "backref") && Str(r[k].refType) in all && LinkShape(scope, name, p, multiple, r[k])
    decreases |rts|
  {
    if rts != [] {
      var l1 := AddTarget(scope, links, name, p, multiple, rts[0]).value;
      assert rts[0] in all;
      assert forall x :: x in rts[1..] ==> x in all;
      AddTargetsFrom(scope, l1, name, p, multiple, rts[1..], all);
      var r := AddTargets(scope, links, name, p, multiple, rts).value;
      forall k | |links| <= k < |l1|
        ensures Has(p, "backref") && Str(r[k].refType) in all && LinkShape(scope, name, p, multiple, r[k])
      {
        assert r[k] == r[..|l1|][k] == l1[k];
      }
    }
  }

  /** After the inner loop, every eligible target's type is linked. */
  lemma {:induction false} AddTargetsComplete(scope: Scope, links: seq<Link>, name: string, p: Fields, multiple: bool, rts: seq<Json>)
    requires AddTargets(scope, links, name, p, multiple, rts).Ok? && Has(p, "backref")
    ensures forall rt :: rt in rts && InScope(scope, rt) == Ok(true) ==>
              Inflection.Underscore(rt.s) in TargetTypes(AddTargets(scope, links, name, p, multiple, rts).value)
    ensures TargetTypes(links) <= TargetTypes(AddTargets(scope, links, name, p, multiple, rts).value)
    decreases |rts|
  {
    if rts != [] {
      var l1 := AddTarget(scope, links, name, p, multiple, rts[0]).value;
      AddTargetsComplete(scope, l1, name, p, multiple, rts[1..]);
      var r := AddTargets(scope, links, name, p, multiple, rts).value;
      assert forall k :: 0 <= k < |l1| ==> r[k] == l1[k] by {
        assert r[..|l1|] == l1;
      }
      assert forall k :: 0 <= k < |links| ==> l1[k] == links[k];
      if InScope(scope, rts[0]) == Ok(true) {
        var tt := Inflection.Underscore(rts[0].s);
        if tt !in TargetTypes(links) {
          assert l1[|links|].targetType == tt;
        }
        assert tt in TargetTypes(l1);
      }
    }
  }

  /** Some candidate of `cands` accounts for link `l`. */
  ghost predicate FromSome(scope: Scope, cands: seq<(string, Fields)>, l: Link)
  {
    exists c :: c in cands && LinkFrom(scope, c, l)
  }

  lemma {:induction false} LinksOfFrom(scope: Scope, links: seq<Link>, cands: seq<(string, Fields)>)
    requires LinksOf(scope, links, cands).Ok?
    ensures forall k :: |links| <= k < |LinksOf(scope, links, cands).value| ==>
              FromSome(scope, cands, LinksOf(scope, links, cands).value[k])
    decreases |cands|
  {
    if cands != [] {
      var c := cands[0];
      var l1 := AddCandidate(scope, links, c).value;
      LinksOfFrom(scope, l1, cands[1..]);
      var r := LinksOf(scope, links, cands).value;
      assert r == LinksOf(scope, l1, cands[1..]).value;
      if Has(c.1, "enum_reference_types") {
        var rts := Iterate(At(c.1, "enum_reference_types")).value;
        AddTargetsFrom(scope, links, c.0, c.1, |rts| > 1, rts, rts);
        forall k | |links| <= k < |l1|
          ensures LinkFrom(scope, c, r[k])
        {
          assert r[k] == r[..|l1|][k] == l1[k];
        }
      }
      forall k | |links| <= k < |r|
        ensures FromSome(scope, cands, r[k])
      {
        if k < |l1| {
          assert LinkFrom(scope, c, r[k]);
        } else {
          assert FromSome(scope, cands[1..], r[k]);
          var c' :| c' in cands[1..] && LinkFrom(scope, c', r[k]);
          assert c' in cands;
        }
      }
    }
  }

  lemma {:induction false} LinksOfComplete(scope: Scope, links: seq<Link>, cands: seq<(string, Fields)>)
    requires LinksOf(scope, links, cands).Ok?
    ensures forall c, rt :: c in cands && Eligible(scope, c, rt) ==>
              Inflection.Underscore(rt.s) in TargetTypes(LinksOf(scope, links, cands).value)
    ensures TargetTypes(links) <= TargetTypes(LinksOf(scope, links, cands).value)
    decreases |cands|
  {
    if cands != [] {
      var c := cands[0];
      var l1 := AddCandidate(scope, links, c).value;
      LinksOfComplete(scope, l1, cands[1..]);
      if Has(c.1, "enum_reference_types") && Has(c.1, "backref") {
        var rts := Iterate(At(c.1, "enum_reference_types")).value;
        AddTargetsComplete(scope, links, c.0, c.1, |rts| > 1, rts);
      } else {
        assert forall k :: 0 <= k < |links| ==> l1[k] == links[k];
      }
      assert forall c' :: c' in cands ==> c' == c || c' in cands[1..];
    }
  }

  /** `_simplify_references` never links one target type twice. */
  lemma LinksUniqueTargets(schema: Fields, dependencyOrder: seq<string>, limitLinks: Fields)
    requires SchemaLinks(schema, dependencyOrder, limitLinks).Ok?
    ensures UniqueTargets(SchemaLinks(schema, dependencyOrder, limitLinks).value)
  {
    var (scope, cands) := ReferenceCandidates(schema, dependencyOrder, limitLinks).value;
    LinksOfUnique(scope, [], cands);
  }

  /** Every link comes from a reference property of the schema that lists
      its target in `enum_reference_types` and has a `backref`; the target is
      in `dependency_order` and allowed by `limit_links`; the link's name,
      label and target type are built from them. */
  lemma LinksWellFormed(schema: Fields, dependencyOrder: seq<string>, limitLinks: Fields)
    requires SchemaLinks(schema, dependencyOrder, limitLinks).Ok?
    ensures var scope := ReferenceCandidates(schema, dependencyOrder, limitLinks).value.0;
            var props := ObjAt(schema, "properties").value;
            var links := SchemaLinks(schema, dependencyOrder, limitLinks).value;
            forall l :: l in links ==>
              Get(props, l.prop).Some? && Get(props, l.prop).value.Obj? &&
              IsLinkCandidate(At(props, l.prop)) == Ok(true) &&
              LinkFrom(scope, (l.prop, At(props, l.prop).fields), l)
  {
    var (scope, cands) := ReferenceCandidates(schema, dependencyOrder, limitLinks).value;
    LinksOfFrom(scope, [], cands);
    var links := SchemaLinks(schema, dependencyOrder, limitLinks).value;
    forall l | l in links
      ensures var props := ObjAt(schema, "properties").value;
              Get(props, l.prop).Some? && Get(props, l.prop).value.Obj? &&
              IsLinkCandidate(At(props, l.prop)) == Ok(true) &&
              LinkFrom(scope, (l.prop, At(props, l.prop).fields), l)
    {
      var k :| 0 <= k < |links| && links[k] == l;
      var c :| c in cands && LinkFrom(scope, c, links[k]);
      assert c.0 == l.prop;
    }
  }

  /** A target of a reference property that is in scope ends up linked,
      from this property or from one examined before it. */
  lemma LinksComplete(schema: Fields, dependencyOrder: seq<string>, limitLinks: Fields, name: string, rt: Json)
    requires SchemaLinks(schema, dependencyOrder, limitLinks).Ok?
    requires var props := ObjAt(schema, "properties").value;
             Has(props, name) && IsLinkCandidate(At(props, name)) == Ok(true) &&
             Eligible(ReferenceCandidates(schema, dependencyOrder, limitLinks).value.0, (name, At(props, name).fields), rt)
    ensures Inflection.Underscore(rt.s) in TargetTypes(SchemaLinks(schema, dependencyOrder, limitLinks).value)
  {
    var (scope, cands) := ReferenceCandidates(schema, dependencyOrder, limitLinks).value;
    LinksOfComplete(scope, [], cands);
  }

  /** The links of the first candidate come first, so it wins the
      de-duplication for each of its eligible targets. */
  lemma {:induction false} FirstCandidateWins(scope: Scope, cands: seq<(string, Fields)>, rt: Json)
    requires cands != [] && Eligible(scope, cands[0], rt) && LinksOf(scope, [], cands).Ok?
    ensures exists l :: l in LinksOf(scope, [], cands).value &&
              l.targetType == Inflection.Underscore(rt.s) && l.prop == cands[0].0
  {
    var c := cands[0];
    var rts := Iterate(At(c.1, "enum_reference_types")).value;
    var l1 := AddCandidate(scope, [], c).value;
    AddTargetsFrom(scope, [], c.0, c.1, |rts| > 1, rts, rts);
    AddTargetsComplete(scope, [], c.0, c.1, |rts| > 1, rts);
    var k :| 0 <= k < |l1| && l1[k].targetType == Inflection.Underscore(rt.s);
    var r := LinksOf(scope, [], cands).value;
    assert r[k] == r[..|l1|][k] == l1[k];
  }

  /** `subject` is examined first: each eligible target of `subject` is
      linked through `subject`. */
  lemma SubjectLinkWins(schema: Fields, dependencyOrder: seq<string>, limitLinks: Fields, rt: Json)
    requires SchemaLinks(schema, dependencyOrder, limitLinks).Ok?
    requires var props := ObjAt(schema, "properties").value;
             Has(props, "subject") && IsLinkCandidate(At(props, "subject")) == Ok(true) &&
             Eligible(ReferenceCandidates(schema, dependencyOrder, limitLinks).value.0, ("subject", At(props, "subject").fields), rt)
    ensures exists l :: l in SchemaLinks(schema, dependencyOrder, limitLinks).value &&
              l.targetType == Inflection.Underscore(rt.s) && l.prop == "subject"
  {
    var (scope, cands) := ReferenceCandidates(schema, dependencyOrder, limitLinks).value;
    var props := ObjAt(schema, "properties").value;
    assert cands[0] == ("subject", At(props, "subject").fields) by {
      assert ("subject", At(props, "subject").fields) in cands;
      assert cands[0].0 == "subject";
      assert Get(props, cands[0].0) == Some(Obj(cands[0].1));
    }
    FirstCandidateWins(scope, cands, rt);
  }

  /** A reference with targets but no `backref` fails the assertion. */
  lemma MissingBackrefFails(scope: Scope, links: seq<Link>, c: (string, Fields))
    requires Has(c.1, "enum_reference_types") && At(c.1, "enum_reference_types").Arr?
    requires At(c.1, "enum_reference_types").items != [] && !Has(c.1, "backref")
    ensures AddCandidate(scope, links, c).Err? && AddCandidate(scope, links, c).error.AssertionError?
  {
  }
}
