// The FHIR R4B to R5 migrations of single resources: one rule per resource
// type, each rewriting the keys that changed between the two versions.
// A rule takes the resource dict and gives the migrated dict (or the error
// Python would raise); contracts say what every key holds afterwards.

module Migrator {

  import opened Text
  import opened Json

  /** Every key outside `ks` holds the same value in `b` as in `a`. */
  ghost predicate KeepsOthers(a: Fields, b: Fields, ks: set<string>)
  {
    forall k :: k !in ks ==> Get(b, k) == Get(a, k)
  }

  // ---------------------------------------------------------------------
  // The dict statements the rules are made of

  /** `d[k] = v` */
  method Assign(f: Fields, k: string, v: Json) returns (r: Fields)
    ensures Get(r, k) == Some(v)
    ensures forall k' :: k' != k ==> Get(r, k') == Get(f, k')
  {
    r := Put(f, k, v);
  }

  /** `del d[k]` for a key that is there. */
  method Remove(f: Fields, k: string) returns (r: Fields)
    requires Get(f, k).Some?
    ensures Get(r, k) == None
    ensures forall k' :: k' != k ==> Get(r, k') == Get(f, k')
  {
    r := Del(f, k);
  }

  /** `d[b] = v; del d[a]` */
  method Replace(f: Fields, a: string, b: string, v: Json) returns (r: Fields)
    requires a != b
    ensures Get(r, a) == None && Get(r, b) == Some(v)
    ensures forall k :: k != a && k != b ==> Get(r, k) == Get(f, k)
  {
    r := Del(Put(f, b, v), a);
  }

  /** `d[b] = d[a]; del d[a]`, which raises KeyError without `a`. */
  method Move(f: Fields, a: string, b: string) returns (r: Result<Fields>)
    requires a != b
    ensures r.Ok? <==> Get(f, a).Some?
    ensures r.Err? ==> r.error == KeyError(a)
    ensures r.Ok? ==> Get(r.value, a) == None && Get(r.value, b) == Get(f, a)
    ensures r.Ok? ==> forall k :: k != a && k != b ==> Get(r.value, k) == Get(f, k)
  {
    var v := Get(f, a);
    if v.None? {
      return Err(KeyError(a));
    }
    var g := Replace(f, a, b, v.value);
    return Ok(g);
  }

  /** `if a in d: d[b] = d[a]; del d[a]` */
  method Rename(f: Fields, a: string, b: string) returns (r: Fields)
    requires a != b
    ensures Get(r, a) == None
    ensures Get(r, b) == if Get(f, a).Some? then Get(f, a) else Get(f, b)
    ensures forall k :: k != a && k != b ==> Get(r, k) == Get(f, k)
  {
    var v := Get(f, a);
    if v.None? {
      return f;
    }
    r := Replace(f, a, b, v.value);
  }

  // ---------------------------------------------------------------------
  // Organization

  /** The single contact an Organization's first address and telecom make. */
  function OrganizationContact(f: Fields, firstAddress: Json): (c: Fields)
    ensures Get(c, "address") == if Get(f, "address").Some? then Some(firstAddress) else None
    ensures Get(c, "telecom") == Get(f, "telecom")
    ensures c == [] <==> Get(f, "address").None? && Get(f, "telecom").None?
  {
    (if Get(f, "address").Some? then [("address", firstAddress)] else [])
    + (if Get(f, "telecom").Some? then [("telecom", Get(f, "telecom").value)] else [])
  }

  /** `migrate_organization`: the first address and the telecom move into
      one `contact` entry, made only when either was there; every other
      key is kept. */
  ghost predicate OrganizationMigrated(f: Fields, r: Result<Fields>)
  {
    var a := Get(f, "address");
    var first := if a.Some? then First(a.value) else Ok(Null);
    && (first.Err? ==> r == Err(first.error))
    && (first.Ok? ==>
          && r.Ok? && Get(r.value, "address") == None && Get(r.value, "telecom") == None
          && Get(r.value, "contact")
             == (if a.Some? || Get(f, "telecom").Some? then Some(Arr([Obj(OrganizationContact(f, first.value))]))
                 else Get(f, "contact"))
          && KeepsOthers(f, r.value, {"address", "telecom", "contact"}))
  }

  /** The contact of an Organization. */
  method OrganizationContacts(resource: Fields) returns (r: Result<Fields>)
    ensures Get(resource, "address").Some? && First(Get(resource, "address").value).Err?
            ==> r == Err(First(Get(resource, "address").value).error)
    ensures r.Ok? <==> (Get(resource, "address").Some? ==> First(Get(resource, "address").value).Ok?)
    ensures r.Ok? ==> Get(r.value, "address") == None && Get(r.value, "telecom") == None
    ensures r.Ok? ==> var first := if Get(resource, "address").Some? then First(Get(resource, "address").value).value else Null;
                      Get(r.value, "contact")
                      == (if Get(resource, "address").Some? || Get(resource, "telecom").Some?
                          then Some(Arr([Obj(OrganizationContact(resource, first))]))
                          else Get(resource, "contact"))
    ensures r.Ok? ==> forall k :: k !in {"address", "telecom", "contact"} ==> Get(r.value, k) == Get(resource, k)
  {

    var f := resource;
    var contact: Fields := [];
    var first := Null;
    var a := Get(f, "address");
    if a.Some? {
      first :- First(a.value);
      contact := [("address", first)];
      f := Remove(f, "address");
    }
    var t := Get(f, "telecom");
    if t.Some? {
      // a key the contact does not have yet goes last
      contact := contact + [("telecom", t.value)];
      f := Remove(f, "telecom");
    }
    assert contact == OrganizationContact(resource, first);
    if |contact| > 0 {
      f := Assign(f, "contact", Arr([Obj(contact)]));
    }
    return Ok(f);
  }

  method MigrateOrganization(resource: Fields, resourceType: Json) returns (r: Result<Fields>)
    ensures resourceType != Str("Organization") ==> r == Ok(resource)
    ensures resourceType == Str("Organization") ==> OrganizationMigrated(resource, r)
  {
    if resourceType != Str("Organization") {
      return Ok(resource);
    }
    r := OrganizationContacts(resource);
  }

  /** A migrated Organization, with neither address nor telecom left, is
      migrated again to itself. */
  lemma {:induction false} OrganizationSettled(f: Fields)
    requires Get(f, "address").None? && Get(f, "telecom").None?
    ensures OrganizationMigrated(f, Ok(f))
  {
    assert OrganizationContact(f, Null) == [];
  }

  // ---------------------------------------------------------------------
  // Specimen

  /** `collection['bodySite'] = {'coding': [collection['bodySite']]}` behind
      `'bodySite' in collection`: the collection must support `in`, and be
      a dict when it holds the name. */
  function CollectionRewritable(c: Json): (r: Result<()>)
    ensures c.Obj? ==> r.Ok?
    ensures r.Ok? <==> c.Obj? || InJ("bodySite", c) == Ok(false)
    ensures r.Err? ==> r.error.TypeError?
  {
    var site :- InJ("bodySite", c);
    if site && c.Str? then Err(TypeError("string indices must be integers"))
    else if site && c.Arr? then Err(TypeError("list indices must be integers or slices, not str"))
    else Ok(())
  }

  /** `migrate_specimen`: the collection, rewritten first, is removed. */
  ghost predicate SpecimenMigrated(f: Fields, r: Result<Fields>)
  {
    var c := Get(f, "collection");
    && (c.None? ==> r == Ok(f))
    && (c.Some? && CollectionRewritable(c.value).Err? ==> r == Err(CollectionRewritable(c.value).error))
    && (c.Some? && CollectionRewritable(c.value).Ok? ==>
          r.Ok? && Get(r.value, "collection") == None && KeepsOthers(f, r.value, {"collection"}))
  }

  method MigrateSpecimen(resource: Fields, resourceType: Json) returns (r: Result<Fields>)
    ensures resourceType != Str("Specimen") ==> r == Ok(resource)
    ensures resourceType == Str("Specimen") ==> SpecimenMigrated(resource, r)
  {
    var c := Get(resource, "collection");
    if resourceType != Str("Specimen") || c.None? {
      return Ok(resource);
    }
    var f := resource;
    var _ :- CollectionRewritable(c.value);
    if c.value.Obj? && Get(c.value.fields, "bodySite").Some? {
      var site := Get(c.value.fields, "bodySite").value;
      var inner := Assign(c.value.fields, "bodySite", Obj([("coding", Arr([site]))]));
      f := Assign(f, "collection", Obj(inner));
    }
    f := Remove(f, "collection");
    return Ok(f);
  }

  /** A Specimen without a collection is migrated to itself. */
  lemma {:induction false} SpecimenSettled(f: Fields)
    requires Get(f, "collection").None?
    ensures SpecimenMigrated(f, Ok(f))
  {
  }

  // ---------------------------------------------------------------------
  // PractitionerRole

  /** `migrate_practitioner_role`: the telecom moves into a new contact. */
  ghost predicate PractitionerRoleMigrated(f: Fields, g: Fields)
  {
    var t := Get(f, "telecom");
    && (t.None? ==> g == f)
    && (t.Some? ==>
          && Get(g, "telecom") == None
          && Get(g, "contact") == Some(Arr([Obj([("telecom", t.value)])]))
          && KeepsOthers(f, g, {"telecom", "contact"}))
  }

  /** The rule cannot fail. */
  method MigratePractitionerRole(resource: Fields, resourceType: Json) returns (g: Fields)
    ensures resourceType != Str("PractitionerRole") ==> g == resource
    ensures resourceType == Str("PractitionerRole") ==> PractitionerRoleMigrated(resource, g)
  {
    var t := Get(resource, "telecom");
    if resourceType != Str("PractitionerRole") || t.None? {
      return resource;
    }
    g := Replace(resource, "telecom", "contact", Arr([Obj([("telecom", t.value)])]));
  }

  // ---------------------------------------------------------------------
  // Encounter

  /** A participant whose `individual` can become its `actor`. */
  predicate Participant(p: Json)
  {
    p.Obj? && Get(p.fields, "individual").Some?
  }

  /** `q` is the participant `p` with `individual` renamed `actor`. */
  ghost predicate ActorMoved(p: Json, q: Json)
  {
    && p.Obj? && q.Obj?
    && Get(q.fields, "actor") == Get(p.fields, "individual") && Get(q.fields, "individual") == None
    && KeepsOthers(p.fields, q.fields, {"actor", "individual"})
  }

  /** The participant loop of `migrate_encounter`: a participant that is not
      a dict, or has no individual, stops it. */
  method MoveActors(ps: seq<Json>) returns (r: Result<seq<Json>>)
    ensures r.Ok? <==> forall i :: 0 <= i < |ps| ==> Participant(ps[i])
    ensures r.Ok? ==> |r.value| == |ps| && forall i :: 0 <= i < |ps| ==> ActorMoved(ps[i], r.value[i])
  {
    var out: seq<Json> := [];
    var i := 0;
    while i < |ps|
      invariant 0 <= i <= |ps| && |out| == i
      invariant forall j :: 0 <= j < i ==> Participant(ps[j]) && ActorMoved(ps[j], out[j])
    {
      var p := ps[i];
      if !p.Obj? {
        return Err(TypeError("indices must be integers"));
      }
      var q :- Move(p.fields, "individual", "actor");
      out := out + [Obj(q)];
      i := i + 1;
    }
    return Ok(out);
  }

  /** The participants a rule iterates over, all migratable. */
  predicate ParticipantsReady(p: Json)
  {
    Iterate(p).Ok? && forall i :: 0 <= i < |Iterate(p).value| ==> Participant(Iterate(p).value[i])
  }

  /** The participants after the loop: a list has each entry migrated;
      anything else, iterated without entries that need it, stays. */
  ghost predicate ParticipantsMigrated(p: Json, q: Option<Json>)
  {
    && (p.Arr? ==>
          && q.Some? && q.value.Arr? && |q.value.items| == |p.items|
          && forall i :: 0 <= i < |p.items| ==> ActorMoved(p.items[i], q.value.items[i]))
    && (!p.Arr? ==> q == Some(p))
  }

  /** The concept an Encounter's class becomes. */
  function ClassConcept(c: Json): Json
  {
    Arr([Obj([("coding", Arr([c]))])])
  }

  /** `migrate_encounter`: the class is wrapped as a concept, each
      participant's individual becomes its actor, the period becomes the
      actual period, reason codes become a reason and hospitalization is
      renamed admission. */
  ghost predicate EncounterMigrated(f: Fields, r: Result<Fields>)
  {
    var c := Get(f, "class");
    var p := Get(f, "participant");
    && (c.None? ==> r == Err(KeyError("class")))
    && (c.Some? && p.None? ==> r == Err(KeyError("participant")))
    && (c.Some? && p.Some? && ParticipantsReady(p.value) && Get(f, "period").None? ==> r == Err(KeyError("period")))
    && (r.Ok? <==> c.Some? && p.Some? && ParticipantsReady(p.value) && Get(f, "period").Some?)
    && (r.Ok? ==> EncounterRewritten(f, r.value))
  }

  /** What each key of a migrated Encounter `g` holds. */
  ghost predicate EncounterRewritten(f: Fields, g: Fields)
    requires Get(f, "class").Some? && Get(f, "participant").Some?
  {
    var rc := Get(f, "reasonCode");
    && Get(g, "class") == Some(ClassConcept(Get(f, "class").value))
    && ParticipantsMigrated(Get(f, "participant").value, Get(g, "participant"))
    && Get(g, "actualPeriod") == Get(f, "period") && Get(g, "period") == None
    && Get(g, "reason") == (if rc.Some? then Some(Arr([Obj([("use", rc.value)])])) else Get(f, "reason"))
    && Get(g, "reasonCode") == None
    && Get(g, "admission") == (if Get(f, "hospitalization").Some? then Get(f, "hospitalization") else Get(f, "admission"))
    && Get(g, "hospitalization") == None
    && KeepsOthers(f, g, {"class", "participant", "period", "actualPeriod", "reasonCode", "reason",
                          "hospitalization", "admission"})
  }

  /** The class and participants of an Encounter. */
  method EncounterParticipants(resource: Fields) returns (r: Result<Fields>)
    ensures Get(resource, "class").None? ==> r == Err(KeyError("class"))
    ensures Get(resource, "class").Some? && Get(resource, "participant").None? ==> r == Err(KeyError("participant"))
    ensures r.Ok? <==> Get(resource, "class").Some? && Get(resource, "participant").Some?
                       && ParticipantsReady(Get(resource, "participant").value)
    ensures r.Ok? ==> Get(r.value, "class") == Some(ClassConcept(Get(resource, "class").value))
    ensures r.Ok? ==> ParticipantsMigrated(Get(resource, "participant").value, Get(r.value, "participant"))
    ensures r.Ok? ==> forall k :: k != "class" && k != "participant" ==> Get(r.value, k) == Get(resource, k)
  {
    var c := Get(resource, "class");
    if c.None? {
      return Err(KeyError("class"));
    }
    var f := Assign(resource, "class", ClassConcept(c.value));
    var p := Get(f, "participant");
    if p.None? {
      return Err(KeyError("participant"));
    }
    var items :- Iterate(p.value);
    var moved :- MoveActors(items);
    if p.value.Arr? {
      f := Assign(f, "participant", Arr(moved));
    }
    return Ok(f);
  }

  /** The reason codes and the hospitalization of an Encounter. */
  method EncounterReasons(f: Fields) returns (g: Fields)
    ensures Get(g, "reason")
            == (if Get(f, "reasonCode").Some? then Some(Arr([Obj([("use", Get(f, "reasonCode").value)])])) else Get(f, "reason"))
    ensures Get(g, "reasonCode") == None
    ensures Get(g, "admission") == (if Get(f, "hospitalization").Some? then Get(f, "hospitalization") else Get(f, "admission"))
    ensures Get(g, "hospitalization") == None
    ensures forall k :: k !in {"reasonCode", "reason", "hospitalization", "admission"} ==> Get(g, k) == Get(f, k)
  {
    g := f;
    var rc := Get(g, "reasonCode");
    if rc.Some? {
      g := Replace(g, "reasonCode", "reason", Arr([Obj([("use", rc.value)])]));
    }
    g := Rename(g, "hospitalization", "admission");
  }

  method MigrateEncounter(resource: Fields, resourceType: Json) returns (r: Result<Fields>)
    ensures resourceType != Str("Encounter") ==> r == Ok(resource)
    ensures resourceType == Str("Encounter") ==> EncounterMigrated(resource, r)
  {
    if resourceType != Str("Encounter") {
      return Ok(resource);
    }
    var a :- EncounterParticipants(resource);
    var b :- Move(a, "period", "actualPeriod");
    var c := EncounterReasons(b);
    EncounterKept(resource, a, b, c);
    EncounterFront(resource, a, b, c);
    EncounterPeriod(resource, a, b, c);
    EncounterReasonsFrom(resource, a, b);
    return Ok(c);
  }

  /** The three steps of the Encounter rule keep every other key. */
  lemma {:induction false} EncounterKept(f: Fields, a: Fields, b: Fields, c: Fields)
    requires forall k :: k != "class" && k != "participant" ==> Get(a, k) == Get(f, k)
    requires forall k :: k != "period" && k != "actualPeriod" ==> Get(b, k) == Get(a, k)
    requires forall k :: k !in {"reasonCode", "reason", "hospitalization", "admission"} ==> Get(c, k) == Get(b, k)
    ensures KeepsOthers(f, c, {"class", "participant", "period", "actualPeriod", "reasonCode", "reason",
                               "hospitalization", "admission"})
  {
  }

  /** The class and participants survive the later steps. */
  lemma {:induction false} EncounterFront(f: Fields, a: Fields, b: Fields, c: Fields)
    requires Get(f, "class").Some? && Get(f, "participant").Some?
    requires Get(a, "class") == Some(ClassConcept(Get(f, "class").value))
    requires ParticipantsMigrated(Get(f, "participant").value, Get(a, "participant"))
    requires forall k :: k != "period" && k != "actualPeriod" ==> Get(b, k) == Get(a, k)
    requires forall k :: k !in {"reasonCode", "reason", "hospitalization", "admission"} ==> Get(c, k) == Get(b, k)
    ensures Get(c, "class") == Some(ClassConcept(Get(f, "class").value))
    ensures ParticipantsMigrated(Get(f, "participant").value, Get(c, "participant"))
  {
    assert Get(c, "class") == Get(a, "class") && Get(c, "participant") == Get(a, "participant");
  }

  /** The period moved by the second step survives the third. */
  lemma {:induction false} EncounterPeriod(f: Fields, a: Fields, b: Fields, c: Fields)
    requires forall k :: k != "class" && k != "participant" ==> Get(a, k) == Get(f, k)
    requires Get(b, "period") == None && Get(b, "actualPeriod") == Get(a, "period")
    requires forall k :: k !in {"reasonCode", "reason", "hospitalization", "admission"} ==> Get(c, k) == Get(b, k)
    ensures Get(c, "actualPeriod") == Get(f, "period") && Get(c, "period") == None
  {
    assert Get(c, "actualPeriod") == Get(b, "actualPeriod") && Get(a, "period") == Get(f, "period");
  }

  /** The keys the last step reads are those of the resource. */
  lemma {:induction false} EncounterReasonsFrom(f: Fields, a: Fields, b: Fields)
    requires forall k :: k != "class" && k != "participant" ==> Get(a, k) == Get(f, k)
    requires forall k :: k != "period" && k != "actualPeriod" ==> Get(b, k) == Get(a, k)
    ensures Get(b, "reasonCode") == Get(f, "reasonCode") && Get(b, "reason") == Get(f, "reason")
    ensures Get(b, "hospitalization") == Get(f, "hospitalization") && Get(b, "admission") == Get(f, "admission")
  {
    assert Get(b, "reasonCode") == Get(a, "reasonCode") && Get(b, "reason") == Get(a, "reason");
    assert Get(b, "hospitalization") == Get(a, "hospitalization") && Get(b, "admission") == Get(a, "admission");
  }

  /** A migrated Encounter has no period left, so migrating it again fails. */
  lemma {:induction false} EncounterOnce(f: Fields, g: Fields, r: Result<Fields>)
    requires EncounterMigrated(f, Ok(g)) && EncounterMigrated(g, r)
    ensures r.Err?
  {
  }

  // ---------------------------------------------------------------------
  // DocumentReference

  /** A content entry whose `format` can be deleted: a dict, or a value
      that does not hold the name. */
  predicate FormatDroppable(c: Json)
  {
    c.Obj? || InJ("format", c) == Ok(false)
  }

  /** `d` is the content entry `c` after `if 'format' in c: del c['format']`. */
  ghost predicate FormatDropped(c: Json, d: Json)
  {
    if c.Obj?
    then d.Obj? && Get(d.fields, "format") == None && KeepsOthers(c.fields, d.fields, {"format"})
    else d == c
  }

  /** The content loop of `migrate_document_reference`: no entry keeps a
      format; nothing else changes. */
  method DropFormats(cs: seq<Json>) returns (r: Result<seq<Json>>)
    ensures r.Ok? <==> forall i :: 0 <= i < |cs| ==> FormatDroppable(cs[i])
    ensures r.Ok? ==> |r.value| == |cs| && forall i :: 0 <= i < |cs| ==> FormatDropped(cs[i], r.value[i])
  {
    var out: seq<Json> := [];
    var i := 0;
    while i < |cs|
      invariant 0 <= i <= |cs| && |out| == i
      invariant forall j :: 0 <= j < i ==> FormatDroppable(cs[j]) && FormatDropped(cs[j], out[j])
    {
      var c := cs[i];
      var has :- InJ("format", c);
      if has {
        if !c.Obj? {
          return Err(TypeError("object does not support item deletion"));
        }
        var g := Remove(c.fields, "format");
        c := Obj(g);
      }
      out := out + [c];
      i := i + 1;
    }
    return Ok(out);
  }

  /** The content entries all migratable. */
  predicate ContentReady(c: Json)
  {
    Iterate(c).Ok? && forall i :: 0 <= i < |Iterate(c).value| ==> FormatDroppable(Iterate(c).value[i])
  }

  /** The content after the loop: a list has each entry migrated; anything
      else, iterated without entries that need it, stays. */
  ghost predicate ContentMigrated(c: Json, d: Option<Json>)
  {
    && (c.Arr? ==>
          && d.Some? && d.value.Arr? && |d.value.items| == |c.items|
          && forall i :: 0 <= i < |c.items| ==> FormatDropped(c.items[i], d.value.items[i]))
    && (!c.Arr? ==> d == Some(c))
  }

  /** `if 'encounter' in context: del context['period']; context =
      context['encounter']`: the context that follows. */
  function EncounterContext(ctx: Json): (r: Result<Json>)
    ensures ctx.Obj? && Get(ctx.fields, "encounter").Some? && Get(ctx.fields, "period").Some?
            ==> r == Ok(Get(ctx.fields, "encounter").value)
    ensures ctx.Obj? && Get(ctx.fields, "encounter").Some? && Get(ctx.fields, "period").None? ==> r == Err(KeyError("period"))
    ensures ctx.Obj? && Get(ctx.fields, "encounter").None? ==> r == Ok(ctx)
  {
    var enc :- InJ("encounter", ctx);
    if !enc then Ok(ctx)
    else if !ctx.Obj? then Err(TypeError("object does not support item deletion"))
    else if Get(ctx.fields, "period").None? then Err(KeyError("period"))
    else Ok(Get(ctx.fields, "encounter").value)
  }

  /** `if 'related' in context: subject = context['related'][0]`: the
      subject the context gives way to, if any. */
  function RelatedSubject(ctx: Json): (r: Result<Option<Json>>)
    ensures ctx.Obj? && Get(ctx.fields, "related").None? ==> r == Ok(None)
    ensures ctx.Obj? && Get(ctx.fields, "related").Some? ==>
              (r.Ok? <==> First(Get(ctx.fields, "related").value).Ok?)
              && (r.Ok? ==> r.value == Some(First(Get(ctx.fields, "related").value).value))
    ensures r.Ok? && r.value.Some? ==> ctx.Obj?
  {
    var rel :- InJ("related", ctx);
    if !rel then Ok(None)
    else
      var related :- Subscript(ctx, Str("related"));
      var first :- First(related);
      Ok(Some(first))
  }

  /** The two context steps can both be taken. */
  predicate ContextReady(ctx: Option<Json>)
  {
    ctx.None? || (EncounterContext(ctx.value).Ok? && RelatedSubject(EncounterContext(ctx.value).value).Ok?)
  }

  /** The context when the rule is done: the encounter in place of one
      that had it, none when related entries made a subject. */
  function ContextAfter(ctx: Option<Json>): Option<Json>
    requires ContextReady(ctx)
  {
    if ctx.None? then None
    else
      var e := EncounterContext(ctx.value).value;
      if RelatedSubject(e).value.Some? then None else Some(e)
  }

  /** The subject when the rule is done. */
  function SubjectAfter(ctx: Option<Json>, subject: Option<Json>): Option<Json>
    requires ContextReady(ctx)
  {
    if ctx.None? then subject
    else
      var s := RelatedSubject(EncounterContext(ctx.value).value).value;
      if s.Some? then s else subject
  }

  /** `migrate_document_reference`: no content entry keeps its format; a
      context with an encounter is replaced by it (its period must be
      there); a context with related entries gives way to its first one as
      the subject. */
  ghost predicate DocumentReferenceMigrated(f: Fields, r: Result<Fields>)
  {
    var c := Get(f, "content");
    var ctx := Get(f, "context");
    && (c.None? ==> r == Err(KeyError("content")))
    && (r.Ok? <==> c.Some? && ContentReady(c.value) && ContextReady(ctx))
    && (r.Ok? ==>
          && ContentMigrated(c.value, Get(r.value, "content"))
          && Get(r.value, "context") == ContextAfter(ctx)
          && Get(r.value, "subject") == SubjectAfter(ctx, Get(f, "subject"))
          && KeepsOthers(f, r.value, {"content", "context", "subject"}))
  }

  /** The content loop of the DocumentReference rule. */
  method DocumentContent(resource: Fields) returns (r: Result<Fields>)
    ensures Get(resource, "content").None? ==> r == Err(KeyError("content"))
    ensures r.Ok? <==> Get(resource, "content").Some? && ContentReady(Get(resource, "content").value)
    ensures r.Ok? ==> ContentMigrated(Get(resource, "content").value, Get(r.value, "content"))
    ensures r.Ok? ==> forall k :: k != "content" ==> Get(r.value, k) == Get(resource, k)
  {
    var content := Get(resource, "content");
    if content.None? {
      return Err(KeyError("content"));
    }
    var items :- Iterate(content.value);
    var dropped :- DropFormats(items);
    var f := resource;
    if content.value.Arr? {
      f := Assign(f, "content", Arr(dropped));
    }
    return Ok(f);
  }

  /** The two context steps of the DocumentReference rule. */
  method DocumentContext(f: Fields) returns (r: Result<Fields>)
    ensures r.Ok? <==> ContextReady(Get(f, "context"))
    ensures r.Ok? ==> Get(r.value, "context") == ContextAfter(Get(f, "context"))
    ensures r.Ok? ==> Get(r.value, "subject") == SubjectAfter(Get(f, "context"), Get(f, "subject"))
    ensures r.Ok? ==> forall k :: k != "context" && k != "subject" ==> Get(r.value, k) == Get(f, k)
  {
    var ctx := Get(f, "context");
    if ctx.None? {
      return Ok(f);
    }
    var e :- EncounterContext(ctx.value);
    var g := Assign(f, "context", e);
    var s :- RelatedSubject(e);
    if s.Some? {
      g := Replace(g, "context", "subject", s.value);
    }
    return Ok(g);
  }

  method MigrateDocumentReference(resource: Fields, resourceType: Json) returns (r: Result<Fields>)
    ensures resourceType != Str("DocumentReference") ==> r == Ok(resource)
    ensures resourceType == Str("DocumentReference") ==> DocumentReferenceMigrated(resource, r)
  {
    if resourceType != Str("DocumentReference") {
      return Ok(resource);
    }
    var f :- DocumentContent(resource);
    r := DocumentContext(f);
  }

  /** A context naming an encounter and a period is replaced by the
      encounter, and when that is a dict with related entries the first of
      them becomes the subject. */
  lemma {:induction false} ContextChain(enc: Fields, period: Json, first: Json, rest: seq<Json>)
    requires Get(enc, "related") == Some(Arr([first] + rest))
    ensures var ctx := Some(Obj([("encounter", Obj(enc)), ("period", period)]));
            ContextReady(ctx) && ContextAfter(ctx) == None && SubjectAfter(ctx, None) == Some(first)
  {
    var ctx := Obj([("encounter", Obj(enc)), ("period", period)]);
    GetCons("encounter", Obj(enc), [("period", period)], "encounter");
    GetCons("encounter", Obj(enc), [("period", period)], "period");
    GetCons("period", period, [], "period");
    assert EncounterContext(ctx) == Ok(Obj(enc));
  }

  // ---------------------------------------------------------------------
  // Observation

  /** `migrate_observation`: a set sampled-data value gets `interval` from
      its `period` and the unit `/s`; the status defaults to `final`. */
  ghost predicate ObservationMigrated(f: Fields, r: Result<Fields>)
  {
    var v := Get(f, "valueSampledData");
    var sampled := v.Some? && Truthy(v.value);
    && (r.Ok? <==> !sampled || (v.value.Obj? && Get(v.value.fields, "period").Some?))
    && (sampled && v.value.Obj? && Get(v.value.fields, "period").None? ==> r == Err(KeyError("period")))
    && (r.Ok? ==>
          && Get(r.value, "status") == (if Get(f, "status").Some? then Get(f, "status") else Some(Str("final")))
          && (!sampled ==> Get(r.value, "valueSampledData") == v)
          && (sampled ==>
                && Get(r.value, "valueSampledData").Some? && Get(r.value, "valueSampledData").value.Obj?
                && var s := Get(r.value, "valueSampledData").value.fields;
                && Get(s, "intervalUnit") == Some(Str("/s"))
                && Get(s, "interval") == Get(v.value.fields, "period")
                && Get(s, "period") == None
                && KeepsOthers(v.value.fields, s, {"intervalUnit", "interval", "period"}))
          && KeepsOthers(f, r.value, {"valueSampledData", "status"}))
  }

  /** The sampled data of an Observation, rewritten when set. */
  method SampledInterval(v: Json) returns (r: Result<Fields>)
    requires Truthy(v)
    ensures r.Ok? <==> v.Obj? && Get(v.fields, "period").Some?
    ensures v.Obj? && Get(v.fields, "period").None? ==> r == Err(KeyError("period"))
    ensures r.Ok? ==> Get(r.value, "intervalUnit") == Some(Str("/s")) && Get(r.value, "interval") == Get(v.fields, "period")
    ensures r.Ok? ==> Get(r.value, "period") == None
    ensures r.Ok? ==> KeepsOthers(v.fields, r.value, {"intervalUnit", "interval", "period"})
  {
    if !v.Obj? {
      return Err(TypeError("object does not support item assignment"));
    }
    var s := Assign(v.fields, "intervalUnit", Str("/s"));
    r := Move(s, "period", "interval");
  }

  method MigrateObservation(resource: Fields, resourceType: Json) returns (r: Result<Fields>)
    ensures resourceType != Str("Observation") ==> r == Ok(resource)
    ensures resourceType == Str("Observation") ==> ObservationMigrated(resource, r)
  {
    if resourceType != Str("Observation") {
      return Ok(resource);
    }
    var f := resource;
    var v := Get(f, "valueSampledData");
    if v.Some? && Truthy(v.value) {
      var s :- SampledInterval(v.value);
      f := Assign(f, "valueSampledData", Obj(s));
    }
    if Get(f, "status").None? {
      f := Assign(f, "status", Str("final"));
    }
    return Ok(f);
  }

  /** A migrated Observation with sampled data has no period left there,
      so migrating it again fails. */
  lemma {:induction false} ObservationOnce(f: Fields, g: Fields, r: Result<Fields>)
    requires ObservationMigrated(f, Ok(g)) && ObservationMigrated(g, r)
    requires Get(f, "valueSampledData").Some? && Truthy(Get(f, "valueSampledData").value)
    ensures r == Err(KeyError("period"))
  {
    var s := Get(g, "valueSampledData").value;
    assert Get(s.fields, "intervalUnit").Some?;
    assert Truthy(s);
  }

  // ---------------------------------------------------------------------
  // MedicationAdministration

  /** `[{'reference': _} for _ in reasons]` */
  function ReasonReferences(reasons: seq<Json>): (r: seq<Json>)
    ensures |r| == |reasons| && forall i :: 0 <= i < |r| ==> r[i] == Obj([("reference", reasons[i])])
  {
    seq(|reasons|, i requires 0 <= i < |reasons| => Obj([("reference", reasons[i])]))
  }

  /** `migrate_medication_administration`: the effective time becomes the
      occurrence time, the coded medication a concept, the context the
      encounter, and each reason reference a reason. */
  ghost predicate MedicationAdministrationMigrated(f: Fields, r: Result<Fields>)
  {
    var e := Get(f, "effectiveDateTime");
    var m := Get(f, "medicationCodeableConcept");
    var c := Get(f, "context");
    var rr := Get(f, "reasonReference");
    && (e.None? ==> r == Err(KeyError("effectiveDateTime")))
    && (e.Some? && m.None? ==> r == Err(KeyError("medicationCodeableConcept")))
    && (e.Some? && m.Some? && c.None? ==> r == Err(KeyError("context")))
    && (r.Ok? <==> e.Some? && m.Some? && c.Some? && (rr.Some? ==> Iterate(rr.value).Ok?))
    && (r.Ok? ==>
          && Get(r.value, "occurenceDateTime") == e && Get(r.value, "effectiveDateTime") == None
          && Get(r.value, "medication") == Some(Obj([("concept", m.value)]))
          && Get(r.value, "medicationCodeableConcept") == None
          && Get(r.value, "encounter") == c && Get(r.value, "context") == None
          && Get(r.value, "reason") == (if rr.Some? then Some(Arr(ReasonReferences(Iterate(rr.value).value))) else Get(f, "reason"))
          && Get(r.value, "reasonReference") == None
          && KeepsOthers(f, r.value, {"effectiveDateTime", "occurenceDateTime", "medicationCodeableConcept", "medication",
                                      "context", "encounter", "reasonReference", "reason"}))
  }

  /** The first two renamings of `migrate_medication_administration`. */
  method MedicationRenames(f: Fields) returns (r: Result<Fields>)
    ensures Get(f, "effectiveDateTime").None? ==> r == Err(KeyError("effectiveDateTime"))
    ensures Get(f, "effectiveDateTime").Some? && Get(f, "medicationCodeableConcept").None?
            ==> r == Err(KeyError("medicationCodeableConcept"))
    ensures r.Ok? <==> Get(f, "effectiveDateTime").Some? && Get(f, "medicationCodeableConcept").Some?
    ensures r.Ok? ==> Get(r.value, "occurenceDateTime") == Get(f, "effectiveDateTime")
                      && Get(r.value, "effectiveDateTime") == None
    ensures r.Ok? ==> Get(r.value, "medication") == Some(Obj([("concept", Get(f, "medicationCodeableConcept").value)]))
                      && Get(r.value, "medicationCodeableConcept") == None
    ensures r.Ok? ==> forall k :: k !in {"effectiveDateTime", "occurenceDateTime", "medicationCodeableConcept", "medication"}
                        ==> Get(r.value, k) == Get(f, k)
  {
    var g :- Move(f, "effectiveDateTime", "occurenceDateTime");
    var m := Get(g, "medicationCodeableConcept");
    if m.None? {
      return Err(KeyError("medicationCodeableConcept"));
    }
    g := Replace(g, "medicationCodeableConcept", "medication", Obj([("concept", m.value)]));
    return Ok(g);
  }

  /** The context and the reason references. */
  method MedicationReasons(f: Fields) returns (r: Result<Fields>)
    ensures Get(f, "context").None? ==> r == Err(KeyError("context"))
    ensures r.Ok? <==> Get(f, "context").Some?
                       && (Get(f, "reasonReference").Some? ==> Iterate(Get(f, "reasonReference").value).Ok?)
    ensures r.Ok? ==> Get(r.value, "encounter") == Get(f, "context") && Get(r.value, "context") == None
    ensures r.Ok? ==> Get(r.value, "reason")
                      == (if Get(f, "reasonReference").Some?
                          then Some(Arr(ReasonReferences(Iterate(Get(f, "reasonReference").value).value)))
                          else Get(f, "reason"))
    ensures r.Ok? ==> Get(r.value, "reasonReference") == None
    ensures r.Ok? ==> forall k :: k !in {"context", "encounter", "reasonReference", "reason"} ==> Get(r.value, k) == Get(f, k)
  {
    var g :- Move(f, "context", "encounter");
    var rr := Get(g, "reasonReference");
    if rr.Some? {
      var reasons :- Iterate(rr.value);
      g := Replace(g, "reasonReference", "reason", Arr(ReasonReferences(reasons)));
    }
    return Ok(g);
  }

  method MigrateMedicationAdministration(resource: Fields, resourceType: Json) returns (r: Result<Fields>)
    ensures resourceType != Str("MedicationAdministration") ==> r == Ok(resource)
    ensures resourceType == Str("MedicationAdministration") ==> MedicationAdministrationMigrated(resource, r)
  {
    if resourceType != Str("MedicationAdministration") {
      return Ok(resource);
    }
    var a :- MedicationRenames(resource);
    MedicationReasonsFrom(resource, a);
    r := MedicationReasons(a);
    if r.Ok? {
      MedicationKept(resource, a, r.value);
      MedicationFront(resource, a, r.value);
    }
  }

  /** The keys the second step reads are those of the resource. */
  lemma {:induction false} MedicationReasonsFrom(f: Fields, a: Fields)
    requires forall k :: k !in {"effectiveDateTime", "occurenceDateTime", "medicationCodeableConcept", "medication"}
               ==> Get(a, k) == Get(f, k)
    ensures Get(a, "context") == Get(f, "context") && Get(a, "encounter") == Get(f, "encounter")
    ensures Get(a, "reasonReference") == Get(f, "reasonReference") && Get(a, "reason") == Get(f, "reason")
  {
  }

  /** The two steps keep every other key. */
  lemma {:induction false} MedicationKept(f: Fields, a: Fields, r: Fields)
    requires forall k :: k !in {"effectiveDateTime", "occurenceDateTime", "medicationCodeableConcept", "medication"}
               ==> Get(a, k) == Get(f, k)
    requires forall k :: k !in {"context", "encounter", "reasonReference", "reason"} ==> Get(r, k) == Get(a, k)
    ensures KeepsOthers(f, r, {"effectiveDateTime", "occurenceDateTime", "medicationCodeableConcept", "medication",
                               "context", "encounter", "reasonReference", "reason"})
  {
  }

  /** What the first step wrote survives the second. */
  lemma {:induction false} MedicationFront(f: Fields, a: Fields, r: Fields)
    requires Get(f, "medicationCodeableConcept").Some?
    requires Get(a, "occurenceDateTime") == Get(f, "effectiveDateTime") && Get(a, "effectiveDateTime") == None
    requires Get(a, "medication") == Some(Obj([("concept", Get(f, "medicationCodeableConcept").value)]))
    requires Get(a, "medicationCodeableConcept") == None
    requires forall k :: k !in {"context", "encounter", "reasonReference", "reason"} ==> Get(r, k) == Get(a, k)
    ensures Get(r, "occurenceDateTime") == Get(f, "effectiveDateTime") && Get(r, "effectiveDateTime") == None
    ensures Get(r, "medication") == Some(Obj([("concept", Get(f, "medicationCodeableConcept").value)]))
    ensures Get(r, "medicationCodeableConcept") == None
  {
    assert Get(r, "occurenceDateTime") == Get(a, "occurenceDateTime") && Get(r, "effectiveDateTime") == Get(a, "effectiveDateTime");
    assert Get(r, "medication") == Get(a, "medication") && Get(r, "medicationCodeableConcept") == Get(a, "medicationCodeableConcept");
  }

  /** A migrated MedicationAdministration has no effective time left, so
      migrating it again fails. */
  lemma {:induction false} MedicationAdministrationOnce(f: Fields, g: Fields, r: Result<Fields>)
    requires MedicationAdministrationMigrated(f, Ok(g)) && MedicationAdministrationMigrated(g, r)
    ensures r == Err(KeyError("effectiveDateTime"))
  {
  }

  // ---------------------------------------------------------------------
  // ResearchSubject

  /** `migrate_research_subject`: the individual becomes the subject. */
  ghost predicate ResearchSubjectMigrated(f: Fields, g: Fields)
  {
    && Get(g, "individual") == None
    && Get(g, "subject") == (if Get(f, "individual").Some? then Get(f, "individual") else Get(f, "subject"))
    && KeepsOthers(f, g, {"individual", "subject"})
  }

  /** The rule cannot fail. */
  method MigrateResearchSubject(resource: Fields, resourceType: Json) returns (g: Fields)
    ensures resourceType != Str("ResearchSubject") ==> g == resource
    ensures resourceType == Str("ResearchSubject") ==> ResearchSubjectMigrated(resource, g)
  {
    if resourceType != Str("ResearchSubject") {
      return resource;
    }
    g := Rename(resource, "individual", "subject");
  }

  /** A migrated ResearchSubject is migrated again to itself. */
  lemma {:induction false} ResearchSubjectSettled(f: Fields)
    requires Get(f, "individual").None?
    ensures ResearchSubjectMigrated(f, f)
  {
  }

  // ---------------------------------------------------------------------
  // ResearchStudy

  /** The role coding of an associated party. */
  function PartyRole(code: string): Json
  {
    Obj([("coding", Arr([Obj([("system", Str("http://hl7.org/fhir/ValueSet/research-study-party-role")),
                              ("code", Str(code)), ("display", Str(code))])])),
         ("text", Str(code))])
  }

  function InvestigatorParty(investigator: Json): Json
  {
    Obj([("role", PartyRole("primary-investigator")), ("party", investigator)])
  }

  function SponsorParty(reference: Json): Json
  {
    Obj([("role", PartyRole("sponsor")), ("party", Obj([("reference", reference)])), ("name", Str("sponsor"))])
  }

  /** The associated parties before the rule, a new empty list without any. */
  function PartiesBefore(f: Fields): Json
  {
    if Get(f, "associatedParty").Some? then Get(f, "associatedParty").value else Arr([])
  }

  /** The recruitment the last step reads: the enrollment when there is one. */
  function RecruitmentSource(f: Fields): Option<Json>
  {
    if Get(f, "enrollment").Some? then Get(f, "enrollment") else Get(f, "recruitment")
  }

  /** The parties the rule appends, in order. */
  function NewParties(f: Fields): seq<Json>
    requires Get(f, "sponsor").Some? ==> Subscript(Get(f, "sponsor").value, Str("reference")).Ok?
  {
    (if Get(f, "principalInvestigator").Some? then [InvestigatorParty(Get(f, "principalInvestigator").value)] else [])
    + (if Get(f, "sponsor").Some? then [SponsorParty(Subscript(Get(f, "sponsor").value, Str("reference")).value)] else [])
  }

  /** The parties of a ResearchStudy can be appended. */
  predicate StudyPartiesReady(f: Fields)
  {
    && ((Get(f, "principalInvestigator").Some? || Get(f, "sponsor").Some?) ==> PartiesBefore(f).Arr?)
    && (Get(f, "sponsor").Some? ==> Subscript(Get(f, "sponsor").value, Str("reference")).Ok?)
  }

  /** A ResearchStudy the rule can migrate. */
  predicate StudyReady(f: Fields)
  {
    StudyPartiesReady(f) && (RecruitmentSource(f).Some? ==> First(RecruitmentSource(f).value).Ok?)
  }

  /** The associated parties after the rule. */
  function PartiesAfter(f: Fields): Option<Json>
    requires StudyPartiesReady(f)
  {
    if Get(f, "principalInvestigator").Some? || Get(f, "sponsor").Some?
    then Some(Arr(PartiesBefore(f).items + NewParties(f)))
    else Get(f, "associatedParty")
  }

  /** `migrate_research_study`: category becomes classifier, focus
      condition; the principal investigator and then the sponsor are
      appended to the associated parties; the status defaults to `active`;
      the recruitment (or the enrollment renamed to it) is read and then
      removed. */
  ghost predicate ResearchStudyMigrated(f: Fields, r: Result<Fields>)
  {
    && (r.Ok? <==> StudyReady(f))
    && (r.Ok? ==>
          && Get(r.value, "category") == None && Get(r.value, "principalInvestigator") == None
          && Get(r.value, "focus") == None && Get(r.value, "enrollment") == None
          && Get(r.value, "sponsor") == None && Get(r.value, "recruitment") == None
          && Get(r.value, "classifier") == (if Get(f, "category").Some? then Get(f, "category") else Get(f, "classifier"))
          && Get(r.value, "condition") == (if Get(f, "focus").Some? then Get(f, "focus") else Get(f, "condition"))
          && Get(r.value, "status") == (if Get(f, "status").Some? then Get(f, "status") else Some(Str("active")))
          && Get(r.value, "associatedParty") == PartiesAfter(f)
          && KeepsOthers(f, r.value, StudyKeys))
  }

  /** The keys the ResearchStudy rule writes. */
  const StudyKeys: set<string> := {"category", "classifier", "principalInvestigator", "associatedParty", "status", "focus",
                                   "condition", "enrollment", "recruitment", "sponsor"}

  /** `if 'associatedParty' not in d: d['associatedParty'] = []` and the
      lookup of its `append`, which anything but a list lacks. */
  method PartyList(f: Fields) returns (r: Result<seq<Json>>)
    ensures r.Ok? <==> PartiesBefore(f).Arr?
    ensures r.Err? ==> r.error.AttributeError?
    ensures r.Ok? ==> r.value == PartiesBefore(f).items
  {
    var parties := Get(f, "associatedParty");
    if parties.None? {
      return Ok([]);
    }
    if !parties.value.Arr? {
      return Err(AttributeError("append"));
    }
    return Ok(parties.value.items);
  }

  /** The principal investigator, appended as a party. */
  method StudyInvestigator(f: Fields) returns (r: Result<Fields>)
    ensures r.Ok? <==> (Get(f, "principalInvestigator").Some? ==> PartiesBefore(f).Arr?)
    ensures r.Err? ==> r.error.AttributeError?
    ensures r.Ok? ==> Get(r.value, "principalInvestigator") == None
    ensures r.Ok? ==> Get(r.value, "associatedParty")
                      == (if Get(f, "principalInvestigator").Some?
                          then Some(Arr(PartiesBefore(f).items + [InvestigatorParty(Get(f, "principalInvestigator").value)]))
                          else Get(f, "associatedParty"))
    ensures r.Ok? ==> forall k :: k != "principalInvestigator" && k != "associatedParty" ==> Get(r.value, k) == Get(f, k)
  {
    var pi := Get(f, "principalInvestigator");
    if pi.None? {
      return Ok(f);
    }
    var parties :- PartyList(f);
    var g := Replace(f, "principalInvestigator", "associatedParty", Arr(parties + [InvestigatorParty(pi.value)]));
    return Ok(g);
  }

  /** Status, focus and enrollment. */
  method StudyRenames(f: Fields) returns (g: Fields)
    ensures Get(g, "status") == (if Get(f, "status").Some? then Get(f, "status") else Some(Str("active")))
    ensures Get(g, "focus") == None && Get(g, "enrollment") == None
    ensures Get(g, "condition") == (if Get(f, "focus").Some? then Get(f, "focus") else Get(f, "condition"))
    ensures Get(g, "recruitment") == RecruitmentSource(f)
    ensures forall k :: k !in {"status", "focus", "condition", "enrollment", "recruitment"} ==> Get(g, k) == Get(f, k)
  {
    var a := f;
    if Get(a, "status").None? {
      a := Assign(a, "status", Str("active"));
    }
    var b := Rename(a, "focus", "condition");
    g := Rename(b, "enrollment", "recruitment");
    StudyRenamesKept(f, a, b, g);
    StudyStatusKept(f, a, b, g);
    StudyFocusRenamed(f, a, b, g);
    StudyEnrollmentRenamed(f, a, b, g);
  }

  lemma {:induction false} StudyRenamesKept(f: Fields, a: Fields, b: Fields, g: Fields)
    requires forall k :: k != "status" ==> Get(a, k) == Get(f, k)
    requires forall k :: k != "focus" && k != "condition" ==> Get(b, k) == Get(a, k)
    requires forall k :: k != "enrollment" && k != "recruitment" ==> Get(g, k) == Get(b, k)
    ensures forall k :: k !in {"status", "focus", "condition", "enrollment", "recruitment"} ==> Get(g, k) == Get(f, k)
  {
  }

  lemma {:induction false} StudyStatusKept(f: Fields, a: Fields, b: Fields, g: Fields)
    requires Get(a, "status") == (if Get(f, "status").Some? then Get(f, "status") else Some(Str("active")))
    requires forall k :: k != "focus" && k != "condition" ==> Get(b, k) == Get(a, k)
    requires forall k :: k != "enrollment" && k != "recruitment" ==> Get(g, k) == Get(b, k)
    ensures Get(g, "status") == (if Get(f, "status").Some? then Get(f, "status") else Some(Str("active")))
  {
    assert Get(g, "status") == Get(b, "status") == Get(a, "status");
  }

  lemma {:induction false} StudyFocusRenamed(f: Fields, a: Fields, b: Fields, g: Fields)
    requires forall k :: k != "status" ==> Get(a, k) == Get(f, k)
    requires Get(b, "focus") == None
    requires Get(b, "condition") == if Get(a, "focus").Some? then Get(a, "focus") else Get(a, "condition")
    requires forall k :: k != "enrollment" && k != "recruitment" ==> Get(g, k) == Get(b, k)
    ensures Get(g, "focus") == None
    ensures Get(g, "condition") == (if Get(f, "focus").Some? then Get(f, "focus") else Get(f, "condition"))
  {
    assert Get(a, "focus") == Get(f, "focus") && Get(a, "condition") == Get(f, "condition");
    assert Get(g, "focus") == Get(b, "focus") && Get(g, "condition") == Get(b, "condition");
  }

  lemma {:induction false} StudyEnrollmentRenamed(f: Fields, a: Fields, b: Fields, g: Fields)
    requires forall k :: k != "status" ==> Get(a, k) == Get(f, k)
    requires forall k :: k != "focus" && k != "condition" ==> Get(b, k) == Get(a, k)
    requires Get(g, "enrollment") == None
    requires Get(g, "recruitment") == if Get(b, "enrollment").Some? then Get(b, "enrollment") else Get(b, "recruitment")
    ensures Get(g, "enrollment") == None && Get(g, "recruitment") == RecruitmentSource(f)
  {
    assert Get(b, "enrollment") == Get(a, "enrollment") == Get(f, "enrollment");
    assert Get(b, "recruitment") == Get(a, "recruitment") == Get(f, "recruitment");
  }

  /** The sponsor, appended as a party by its reference; the list is looked
      up before the reference is read. */
  method StudySponsor(f: Fields) returns (r: Result<Fields>)
    ensures r.Ok? <==> (Get(f, "sponsor").Some? ==> PartiesBefore(f).Arr? && Subscript(Get(f, "sponsor").value, Str("reference")).Ok?)
    ensures Get(f, "sponsor").Some? && !PartiesBefore(f).Arr? ==> r.Err? && r.error.AttributeError?
    ensures r.Ok? ==> Get(r.value, "sponsor") == None
    ensures r.Ok? ==> Get(r.value, "associatedParty")
                      == (if Get(f, "sponsor").Some?
                          then Some(Arr(PartiesBefore(f).items + [SponsorParty(Subscript(Get(f, "sponsor").value, Str("reference")).value)]))
                          else Get(f, "associatedParty"))
    ensures r.Ok? ==> forall k :: k != "sponsor" && k != "associatedParty" ==> Get(r.value, k) == Get(f, k)
  {
    var sponsor := Get(f, "sponsor");
    if sponsor.None? {
      return Ok(f);
    }
    var parties :- PartyList(f);
    var reference :- Subscript(sponsor.value, Str("reference"));
    var g := Replace(f, "sponsor", "associatedParty", Arr(parties + [SponsorParty(reference)]));
    return Ok(g);
  }

  /** The recruitment, read as a first group and then deleted. */
  method StudyRecruitment(f: Fields) returns (r: Result<Fields>)
    ensures r.Ok? <==> (Get(f, "recruitment").Some? ==> First(Get(f, "recruitment").value).Ok?)
    ensures r.Ok? ==> Get(r.value, "recruitment") == None
    ensures r.Ok? ==> forall k :: k != "recruitment" ==> Get(r.value, k) == Get(f, k)
  {
    var recruitment := Get(f, "recruitment");
    if recruitment.None? {
      return Ok(f);
    }
    var group :- First(recruitment.value);
    var g := Assign(f, "recruitment", Obj([("actualGroup", group)]));
    g := Remove(g, "recruitment");
    return Ok(g);
  }

  method MigrateResearchStudy(resource: Fields, resourceType: Json) returns (r: Result<Fields>)
    ensures resourceType != Str("ResearchStudy") ==> r == Ok(resource)
    ensures resourceType == Str("ResearchStudy") ==> ResearchStudyMigrated(resource, r)
  {
    if resourceType != Str("ResearchStudy") {
      return Ok(resource);
    }
    var a := Rename(resource, "category", "classifier");
    var b := StudyInvestigator(a);
    if b.Err? {
      StudyInvestigatorFails(resource, a);
      return b;
    }
    var c := StudyRenames(b.value);
    StudySponsorFrom(resource, a, b.value, c);
    var d := StudySponsor(c);
    if d.Err? {
      StudySponsorFails(resource, c);
      return d;
    }
    StudyPartiesOk(resource, c);
    StudyRecruitmentFrom(resource, a, b.value, c, d.value);
    r := StudyRecruitment(d.value);
    if r.Ok? {
      StudyKept(resource, a, b.value, c, d.value, r.value);
      StudyClassifier(resource, a, b.value, c, d.value, r.value);
      StudyRenamed(resource, a, b.value, c, d.value, r.value);
      StudyParties(resource, c, d.value, r.value);
      StudyPartiesGone(resource, c, d.value, r.value);
    }
  }

  /** Without a list to append the investigator to, the study is not ready. */
  lemma {:induction false} StudyInvestigatorFails(f: Fields, a: Fields)
    requires forall k :: k != "category" && k != "classifier" ==> Get(a, k) == Get(f, k)
    requires !(Get(a, "principalInvestigator").Some? ==> PartiesBefore(a).Arr?)
    ensures !StudyReady(f)
  {
    assert Get(a, "associatedParty") == Get(f, "associatedParty");
    assert Get(a, "principalInvestigator") == Get(f, "principalInvestigator");
  }

  /** What the sponsor step reads, in terms of the resource. */
  ghost predicate StudySponsorReads(f: Fields, c: Fields)
  {
    && (Get(f, "principalInvestigator").Some? ==> PartiesBefore(f).Arr?)
    && Get(c, "principalInvestigator") == None
    && Get(c, "sponsor") == Get(f, "sponsor")
    && Get(c, "associatedParty")
       == (if Get(f, "principalInvestigator").Some?
           then Some(Arr(PartiesBefore(f).items + [InvestigatorParty(Get(f, "principalInvestigator").value)]))
           else Get(f, "associatedParty"))
  }

  lemma {:induction false} StudySponsorFrom(f: Fields, a: Fields, b: Fields, c: Fields)
    requires forall k :: k != "category" && k != "classifier" ==> Get(a, k) == Get(f, k)
    requires Get(a, "principalInvestigator").Some? ==> PartiesBefore(a).Arr?
    requires Get(b, "principalInvestigator") == None
    requires Get(b, "associatedParty")
             == (if Get(a, "principalInvestigator").Some?
                 then Some(Arr(PartiesBefore(a).items + [InvestigatorParty(Get(a, "principalInvestigator").value)]))
                 else Get(a, "associatedParty"))
    requires forall k :: k != "principalInvestigator" && k != "associatedParty" ==> Get(b, k) == Get(a, k)
    requires forall k :: k !in {"status", "focus", "condition", "enrollment", "recruitment"} ==> Get(c, k) == Get(b, k)
    ensures StudySponsorReads(f, c)
  {
    assert Get(a, "associatedParty") == Get(f, "associatedParty");
    assert Get(a, "principalInvestigator") == Get(f, "principalInvestigator");
    assert PartiesBefore(a) == PartiesBefore(f);
    assert Get(c, "sponsor") == Get(b, "sponsor") && Get(b, "sponsor") == Get(a, "sponsor");
    assert Get(c, "associatedParty") == Get(b, "associatedParty");
  }

  /** A failing sponsor step leaves the study not ready. */
  lemma {:induction false} StudySponsorFails(f: Fields, c: Fields)
    requires StudySponsorReads(f, c)
    requires !(Get(c, "sponsor").Some? ==> PartiesBefore(c).Arr? && Subscript(Get(c, "sponsor").value, Str("reference")).Ok?)
    ensures !StudyReady(f)
  {
  }

  /** The recruitment the last step reads is the one of the resource. */
  lemma {:induction false} StudyRecruitmentFrom(f: Fields, a: Fields, b: Fields, c: Fields, d: Fields)
    requires forall k :: k != "category" && k != "classifier" ==> Get(a, k) == Get(f, k)
    requires forall k :: k != "principalInvestigator" && k != "associatedParty" ==> Get(b, k) == Get(a, k)
    requires Get(c, "recruitment") == RecruitmentSource(b)
    requires forall k :: k != "sponsor" && k != "associatedParty" ==> Get(d, k) == Get(c, k)
    ensures Get(d, "recruitment") == RecruitmentSource(f)
  {
    assert Get(b, "enrollment") == Get(a, "enrollment") == Get(f, "enrollment");
    assert Get(b, "recruitment") == Get(a, "recruitment") == Get(f, "recruitment");
  }

  /** The five steps keep every key the rule does not write. */
  lemma {:induction false} StudyKept(f: Fields, a: Fields, b: Fields, c: Fields, d: Fields, r: Fields)
    requires forall k :: k != "category" && k != "classifier" ==> Get(a, k) == Get(f, k)
    requires forall k :: k != "principalInvestigator" && k != "associatedParty" ==> Get(b, k) == Get(a, k)
    requires forall k :: k !in {"status", "focus", "condition", "enrollment", "recruitment"} ==> Get(c, k) == Get(b, k)
    requires forall k :: k != "sponsor" && k != "associatedParty" ==> Get(d, k) == Get(c, k)
    requires forall k :: k != "recruitment" ==> Get(r, k) == Get(d, k)
    ensures KeepsOthers(f, r, StudyKeys)
  {
  }

  /** The category renamed by the first step survives the others. */
  lemma {:induction false} StudyClassifier(f: Fields, a: Fields, b: Fields, c: Fields, d: Fields, r: Fields)
    requires Get(a, "category") == None
    requires Get(a, "classifier") == (if Get(f, "category").Some? then Get(f, "category") else Get(f, "classifier"))
    requires forall k :: k != "principalInvestigator" && k != "associatedParty" ==> Get(b, k) == Get(a, k)
    requires forall k :: k !in {"status", "focus", "condition", "enrollment", "recruitment"} ==> Get(c, k) == Get(b, k)
    requires forall k :: k != "sponsor" && k != "associatedParty" ==> Get(d, k) == Get(c, k)
    requires forall k :: k != "recruitment" ==> Get(r, k) == Get(d, k)
    ensures Get(r, "category") == None
    ensures Get(r, "classifier") == (if Get(f, "category").Some? then Get(f, "category") else Get(f, "classifier"))
  {
    assert Get(r, "category") == Get(d, "category") == Get(c, "category") == Get(b, "category");
    assert Get(r, "classifier") == Get(d, "classifier") == Get(c, "classifier") == Get(b, "classifier");
  }

  /** What the renaming step wrote survives the others. */
  lemma {:induction false} StudyRenamed(f: Fields, a: Fields, b: Fields, c: Fields, d: Fields, r: Fields)
    requires forall k :: k != "category" && k != "classifier" ==> Get(a, k) == Get(f, k)
    requires forall k :: k != "principalInvestigator" && k != "associatedParty" ==> Get(b, k) == Get(a, k)
    requires Get(c, "status") == (if Get(b, "status").Some? then Get(b, "status") else Some(Str("active")))
    requires Get(c, "focus") == None && Get(c, "enrollment") == None
    requires Get(c, "condition") == (if Get(b, "focus").Some? then Get(b, "focus") else Get(b, "condition"))
    requires forall k :: k != "sponsor" && k != "associatedParty" ==> Get(d, k) == Get(c, k)
    requires forall k :: k != "recruitment" ==> Get(r, k) == Get(d, k)
    ensures Get(r, "status") == (if Get(f, "status").Some? then Get(f, "status") else Some(Str("active")))
    ensures Get(r, "focus") == None && Get(r, "enrollment") == None
    ensures Get(r, "condition") == (if Get(f, "focus").Some? then Get(f, "focus") else Get(f, "condition"))
  {
    assert Get(b, "status") == Get(a, "status") == Get(f, "status");
    assert Get(b, "focus") == Get(a, "focus") == Get(f, "focus");
    assert Get(b, "condition") == Get(a, "condition") == Get(f, "condition");
    assert Get(r, "status") == Get(d, "status") == Get(c, "status");
    assert Get(r, "focus") == Get(d, "focus") == Get(c, "focus");
    assert Get(r, "enrollment") == Get(d, "enrollment") == Get(c, "enrollment");
    assert Get(r, "condition") == Get(d, "condition") == Get(c, "condition");
  }

  /** The steps that append parties succeeding make the study's parties
      ready. */
  lemma {:induction false} StudyPartiesOk(f: Fields, c: Fields)
    requires StudySponsorReads(f, c)
    requires Get(c, "sponsor").Some? ==> PartiesBefore(c).Arr? && Subscript(Get(c, "sponsor").value, Str("reference")).Ok?
    ensures StudyPartiesReady(f)
  {
  }

  /** The parties the two appending steps leave. */
  lemma {:induction false} StudyParties(f: Fields, c: Fields, d: Fields, r: Fields)
    requires StudySponsorReads(f, c) && StudyPartiesReady(f)
    requires Get(c, "sponsor").Some? ==> PartiesBefore(c).Arr? && Subscript(Get(c, "sponsor").value, Str("reference")).Ok?
    requires Get(d, "associatedParty")
             == (if Get(c, "sponsor").Some?
                 then Some(Arr(PartiesBefore(c).items + [SponsorParty(Subscript(Get(c, "sponsor").value, Str("reference")).value)]))
                 else Get(c, "associatedParty"))
    requires forall k :: k != "recruitment" ==> Get(r, k) == Get(d, k)
    ensures Get(r, "associatedParty") == PartiesAfter(f)
  {
    assert Get(r, "associatedParty") == Get(d, "associatedParty");
    var pi := Get(f, "principalInvestigator");
    var sp := Get(f, "sponsor");
    if pi.Some? {
      var ps := PartiesBefore(f).items;
      var inv := InvestigatorParty(pi.value);
      assert PartiesBefore(c) == Arr(ps + [inv]);
      if sp.Some? {
        var spon := SponsorParty(Subscript(sp.value, Str("reference")).value);
        assert NewParties(f) == [inv] + [spon];
        assert (ps + [inv]) + [spon] == ps + ([inv] + [spon]);
      } else {
        assert NewParties(f) == [inv];
      }
    } else if sp.Some? {
      assert PartiesBefore(c) == PartiesBefore(f);
      assert NewParties(f) == [SponsorParty(Subscript(sp.value, Str("reference")).value)];
    }
  }

  /** The investigator and the sponsor are gone. */
  lemma {:induction false} StudyPartiesGone(f: Fields, c: Fields, d: Fields, r: Fields)
    requires Get(c, "principalInvestigator") == None
    requires Get(d, "sponsor") == None
    requires forall k :: k != "sponsor" && k != "associatedParty" ==> Get(d, k) == Get(c, k)
    requires forall k :: k != "recruitment" ==> Get(r, k) == Get(d, k)
    ensures Get(r, "principalInvestigator") == None && Get(r, "sponsor") == None
  {
    assert Get(r, "principalInvestigator") == Get(d, "principalInvestigator") == Get(c, "principalInvestigator");
    assert Get(r, "sponsor") == Get(d, "sponsor");
  }

  /** A migrated ResearchStudy is migrated again to itself once it has a
      status and none of the R4B keys. */
  lemma {:induction false} ResearchStudySettled(f: Fields)
    requires Get(f, "category").None? && Get(f, "principalInvestigator").None? && Get(f, "focus").None?
    requires Get(f, "enrollment").None? && Get(f, "sponsor").None? && Get(f, "recruitment").None?
    requires Get(f, "status").Some?
    ensures ResearchStudyMigrated(f, Ok(f))
  {
  }

  // ---------------------------------------------------------------------
  // migrate_resource

  /** The types of the earlier rules differ from each other. */
  lemma EarlierNamesDistinct()
    ensures Str("Encounter") != Str("DocumentReference")
    ensures Str("Encounter") != Str("Observation")
    ensures Str("Encounter") != Str("MedicationAdministration")
    ensures Str("DocumentReference") != Str("Observation")
    ensures Str("DocumentReference") != Str("MedicationAdministration")
    ensures Str("Observation") != Str("MedicationAdministration")
  {
  }

  /** The types of the later rules differ from each other. */
  lemma LaterNamesDistinct()
    ensures Str("ResearchSubject") != Str("ResearchStudy")
    ensures Str("ResearchSubject") != Str("PractitionerRole")
    ensures Str("ResearchSubject") != Str("Specimen")
    ensures Str("ResearchSubject") != Str("Organization")
    ensures Str("ResearchStudy") != Str("PractitionerRole")
    ensures Str("ResearchStudy") != Str("Specimen")
    ensures Str("ResearchStudy") != Str("Organization")
    ensures Str("PractitionerRole") != Str("Specimen")
    ensures Str("PractitionerRole") != Str("Organization")
    ensures Str("Specimen") != Str("Organization")
  {
  }

  /** The types of the earlier rules differ from those of the later ones. */
  lemma RuleNamesDistinct()
    ensures Str("Encounter") != Str("ResearchSubject")
    ensures Str("Encounter") != Str("ResearchStudy")
    ensures Str("Encounter") != Str("PractitionerRole")
    ensures Str("Encounter") != Str("Specimen")
    ensures Str("Encounter") != Str("Organization")
    ensures Str("DocumentReference") != Str("ResearchSubject")
    ensures Str("DocumentReference") != Str("ResearchStudy")
    ensures Str("DocumentReference") != Str("PractitionerRole")
    ensures Str("DocumentReference") != Str("Specimen")
    ensures Str("DocumentReference") != Str("Organization")
    ensures Str("Observation") != Str("ResearchSubject")
    ensures Str("Observation") != Str("ResearchStudy")
    ensures Str("Observation") != Str("PractitionerRole")
    ensures Str("Observation") != Str("Specimen")
    ensures Str("Observation") != Str("Organization")
    ensures Str("MedicationAdministration") != Str("ResearchSubject")
    ensures Str("MedicationAdministration") != Str("ResearchStudy")
    ensures Str("MedicationAdministration") != Str("PractitionerRole")
    ensures Str("MedicationAdministration") != Str("Specimen")
    ensures Str("MedicationAdministration") != Str("Organization")
  {
  }

  /** The resource types of the rules `migrate_resource` applies first. */
  predicate EarlierType(t: Json)
  {
    t == Str("Encounter") || t == Str("DocumentReference") || t == Str("Observation") || t == Str("MedicationAdministration")
  }

  /** The resource types of the rules it applies last. */
  predicate LaterType(t: Json)
  {
    t == Str("ResearchSubject") || t == Str("ResearchStudy") || t == Str("PractitionerRole") || t == Str("Specimen")
    || t == Str("Organization")
  }

  /** The resource types a rule is written for. */
  predicate Migrated(t: Json)
  {
    EarlierType(t) || LaterType(t)
  }

  /** The rules `migrate_resource` applies first. */
  method EarlierRules(resource: Fields, t: Json) returns (r: Result<Fields>)
    ensures !EarlierType(t) ==> r == Ok(resource)
    ensures t == Str("Encounter") ==> EncounterMigrated(resource, r)
    ensures t == Str("DocumentReference") ==> DocumentReferenceMigrated(resource, r)
    ensures t == Str("Observation") ==> ObservationMigrated(resource, r)
    ensures t == Str("MedicationAdministration") ==> MedicationAdministrationMigrated(resource, r)
  {
    EarlierNamesDistinct();
    var f :- MigrateEncounter(resource, t);
    f :- MigrateDocumentReference(f, t);
    f :- MigrateObservation(f, t);
    r := MigrateMedicationAdministration(f, t);
  }

  /** The rules `migrate_resource` applies last. */
  method LaterRules(resource: Fields, t: Json) returns (r: Result<Fields>)
    ensures !LaterType(t) ==> r == Ok(resource)
    ensures t == Str("ResearchSubject") ==> r.Ok? && ResearchSubjectMigrated(resource, r.value)
    ensures t == Str("ResearchStudy") ==> ResearchStudyMigrated(resource, r)
    ensures t == Str("PractitionerRole") ==> r.Ok? && PractitionerRoleMigrated(resource, r.value)
    ensures t == Str("Specimen") ==> SpecimenMigrated(resource, r)
    ensures t == Str("Organization") ==> OrganizationMigrated(resource, r)
  {
    LaterNamesDistinct();
    var f := MigrateResearchSubject(resource, t);
    f :- MigrateResearchStudy(f, t);
    f := MigratePractitionerRole(f, t);
    f :- MigrateSpecimen(f, t);
    r := MigrateOrganization(f, t);
  }

  /** `migrate_resource`: the resource type must be there; only the rule for
      that type applies, and a resource of any other type is returned as it
      is. */
  method MigrateResource(resource: Fields) returns (r: Result<Fields>)
    ensures Get(resource, "resourceType").None? ==> r.Err? && r.error.AssertionError?
    ensures Get(resource, "resourceType").Some? && !Migrated(Get(resource, "resourceType").value) ==> r == Ok(resource)
    ensures Get(resource, "resourceType") == Some(Str("Encounter")) ==> EncounterMigrated(resource, r)
    ensures Get(resource, "resourceType") == Some(Str("DocumentReference")) ==> DocumentReferenceMigrated(resource, r)
    ensures Get(resource, "resourceType") == Some(Str("Observation")) ==> ObservationMigrated(resource, r)
    ensures Get(resource, "resourceType") == Some(Str("MedicationAdministration")) ==> MedicationAdministrationMigrated(resource, r)
    ensures Get(resource, "resourceType") == Some(Str("ResearchSubject")) ==> r.Ok? && ResearchSubjectMigrated(resource, r.value)
    ensures Get(resource, "resourceType") == Some(Str("ResearchStudy")) ==> ResearchStudyMigrated(resource, r)
    ensures Get(resource, "resourceType") == Some(Str("PractitionerRole")) ==> r.Ok? && PractitionerRoleMigrated(resource, r.value)
    ensures Get(resource, "resourceType") == Some(Str("Specimen")) ==> SpecimenMigrated(resource, r)
    ensures Get(resource, "resourceType") == Some(Str("Organization")) ==> OrganizationMigrated(resource, r)
  {
    var rt := Get(resource, "resourceType");
    if rt.None? {
      return Err(AssertionError("missing resourceType"));
    }
    RuleNamesDistinct();
    var f :- EarlierRules(resource, rt.value);
    r := LaterRules(f, rt.value);
  }
}
